/** What a Cache-Control header means, as it is written: directives between commas, in any case and with any white space
around them, of which the first that states a lifetime counts. */
module CacheHeaders {
  import opened Prelude
  import opened ClientAccess
  import opened ClientEntries
  import opened CimdTtl

  // ---------- directives ----------

  function Joined(parts: seq<string>): string
    requires |parts| > 0
  {
    if |parts| == 1 then parts[0] else parts[0] + "," + Joined(parts[1..])
  }

  predicate NoComma(s: string) {
    forall k :: 0 <= k < |s| ==> s[k] != ','
  }

  lemma {:induction false} SplitsAtFirstComma(a: string, rest: string)
    requires NoComma(a)
    ensures SplitComma(a + "," + rest) == [a] + SplitComma(rest)
  {
    var s := a + "," + rest;
    if a == "" {
      assert s[0] == ',' && s[1..] == rest;
    } else {
      assert s[0] == a[0] && s[1..] == a[1..] + "," + rest;
      SplitsAtFirstComma(a[1..], rest);
      assert [a[0]] + a[1..] == a;
    }
  }

  /** Splitting gives back the parts that were joined by commas. */
  lemma {:induction false} SplitIsJoined(parts: seq<string>)
    requires |parts| > 0 && forall k :: 0 <= k < |parts| ==> NoComma(parts[k])
    ensures SplitComma(Joined(parts)) == parts
    decreases |parts|
  {
    if |parts| == 1 {
      NoCommaNoSplit(parts[0]);
    } else {
      SplitIsJoined(parts[1..]);
      SplitsAtFirstComma(parts[0], Joined(parts[1..]));
      assert [parts[0]] + parts[1..] == parts;
    }
  }

  lemma {:induction false} FirstStatedCounts(ds: seq<string>, k: nat, fallback: Time)
    requires k <= |ds| && (forall j :: 0 <= j < k ==> Stated(ds[j]).None?) && (k < |ds| ==> Stated(ds[k]).Some?)
    ensures FromDirectives(ds, fallback) == if k < |ds| then Stated(ds[k]).value else fallback
    decreases k
  {
    if k == 0 {
    } else {
      FirstStatedCounts(ds[1..], k - 1, fallback);
    }
  }

  function Clamped(ttl: Time): Time {
    if ttl < 5 * SECOND then 5 * SECOND else if ttl > 24 * HOUR then 24 * HOUR else ttl
  }

  /** The lifetime a header states is what its first directive that states one says, and the fallback if none does; a
      document is kept that long, but at least five seconds and at most a day. */
  lemma HeaderMeans(parts: seq<string>, k: nat, fallback: Time)
    requires |parts| > 0 && forall j :: 0 <= j < |parts| ==> NoComma(parts[j])
    requires k <= |parts| && (forall j :: 0 <= j < k ==> Stated(parts[j]).None?) &&
      (k < |parts| ==> Stated(parts[k]).Some?)
    ensures var stated := if k < |parts| then Stated(parts[k]).value else fallback;
      ParseTtl(Joined(parts), fallback) == stated && CacheTtl(Joined(parts), fallback) == Clamped(stated)
  {
    SplitIsJoined(parts);
    FirstStatedCounts(parts, k, fallback);
    if Joined(parts) == "" {
      assert parts == SplitComma("");
      assert TrimSpace(AsciiLower("")) == "";
    }
  }

  // ---------- what a directive states ----------

  lemma FoldingAndTrimming(s: string)
    ensures TrimSpace(AsciiLower(s)) == AsciiLower(TrimSpace(s))
  {
    TrimLeftFolds(s);
    TrimRightFolds(TrimLeft(s));
  }

  /** The directive begins with max-age and goes on like this. */
  ghost predicate HasMaxAge(directive: string, value: string) {
    Bare("max-age=" + value) && Reads(directive, "max-age=" + value)
  }

  lemma PrefixAndRest(s: string, prefix: string)
    requires prefix <= s
    ensures s == prefix + s[|prefix|..]
  {
  }

  /** A directive states a lifetime exactly if it is no-store, no-cache or a max-age; the first two state none, the last
      what its value says. */
  lemma StatedExactly(directive: string)
    ensures Stated(directive).Some? <==>
      Reads(directive, "no-store") || Reads(directive, "no-cache") || exists value :: HasMaxAge(directive, value)
    ensures Reads(directive, "no-store") || Reads(directive, "no-cache") ==> Stated(directive) == Some(0)
    ensures forall value :: HasMaxAge(directive, value) ==> Stated(directive) == Some(MaxAge(TrimSpace(value)))
  {
    var d := AsciiLower(TrimSpace(directive));
    FoldingAndTrimming(directive);
    AcceptedIsRead(directive);
    ReadingIsTrimming(directive, "no-store");
    ReadingIsTrimming(directive, "no-cache");
    forall value | HasMaxAge(directive, value) ensures d == "max-age=" + value && d[|"max-age="|..] == value {
      ReadingIsTrimming(directive, "max-age=" + value);
    }
    if "max-age=" <= d {
      PrefixAndRest(d, "max-age=");
      assert HasMaxAge(directive, d[|"max-age="|..]);
    }
  }

  // ---------- numbers ----------

  predicate AllDigits(s: string) {
    s != "" && forall k :: 0 <= k < |s| ==> Digit(s[k])
  }

  lemma {:induction false} DigitsAreParsed(s: string)
    ensures ParseDigits(s).Some? <==> AllDigits(s)
  {
    if s == "" {
    } else {
      var front := s[..|s| - 1];
      DigitsAreParsed(front);
      assert forall k :: 0 <= k < |front| ==> front[k] == s[k];
      if |s| > 1 && AllDigits(s) {
        assert AllDigits(front);
      }
    }
  }

  predicate IsSign(sign: string) {
    sign == "" || sign == "+" || sign == "-"
  }

  /** A number is read exactly if it is digits after an optional sign, and fits 64 bits. */
  lemma SignedNumber(sign: string, digits: string)
    requires IsSign(sign) && AllDigits(digits)
    ensures ParseDigits(digits).Some?
    ensures var n: int := ParseDigits(digits).value;
      var v := if sign == "-" then 0 - n else n;
      ParseInt64(sign + digits) == if -0x8000_0000_0000_0000 <= v < 0x8000_0000_0000_0000 then Some(v) else None
  {
    DigitsAreParsed(digits);
    var s := sign + digits;
    if sign == "" {
      assert s == digits && s[0] == digits[0];
    } else {
      assert s[1..] == digits && s[0] == sign[0];
    }
  }

  lemma MalformedNumber(s: string)
    requires forall sign, digits :: IsSign(sign) && AllDigits(digits) ==> s != sign + digits
    ensures ParseInt64(s).None?
  {
    if s != "" && (s[0] == '-' || s[0] == '+') {
      assert s == [s[0]] + s[1..] && IsSign([s[0]]);
      DigitsAreParsed(s[1..]);
    } else {
      assert s == "" + s && IsSign("");
      DigitsAreParsed(s);
    }
  }

  /** Leading zeros do not matter. */
  lemma {:induction false} LeadingZero(s: string)
    requires AllDigits(s)
    ensures ParseDigits("0" + s) == ParseDigits(s)
  {
    var longer := "0" + s;
    if |s| > 1 {
      var front := s[..|s| - 1];
      assert longer[..|s|] == "0" + front && longer[|s|] == s[|s| - 1];
      assert forall k :: 0 <= k < |front| ==> front[k] == s[k];
      LeadingZero(front);
    } else {
      assert longer[..1] == "0" && longer[1] == s[0];
    }
  }

  /** A max-age of a positive number of seconds is that long, in nanoseconds kept to 64 bits; a negative, huge or
      malformed one, or zero, is none. */
  lemma MaxAgeOf(value: string)
    ensures forall sign, digits :: IsSign(sign) && AllDigits(digits) && value == sign + digits ==>
      && ParseDigits(digits).Some?
      && var n := ParseDigits(digits).value;
         MaxAge(value) == if sign != "-" && 0 < n < 0x8000_0000_0000_0000 then Wrap64(n * 1_000_000_000) else 0
    ensures (forall sign, digits :: IsSign(sign) && AllDigits(digits) ==> value != sign + digits) ==> MaxAge(value) == 0
  {
    forall sign, digits | IsSign(sign) && AllDigits(digits) && value == sign + digits
      ensures ParseDigits(digits).Some?
      ensures var n := ParseDigits(digits).value;
        MaxAge(value) == if sign != "-" && 0 < n < 0x8000_0000_0000_0000 then Wrap64(n * 1_000_000_000) else 0
    {
      SignedNumber(sign, digits);
    }
    if forall sign, digits :: IsSign(sign) && AllDigits(digits) ==> value != sign + digits {
      MalformedNumber(value);
    }
  }
}
