/** How long a fetched client document may be cached, from its Cache-Control header.

Durations are 64-bit nanosecond counts that wrap around, as in the program. Lower-casing is ASCII: no other
character folds into a letter of the directives looked for.
*/
module CimdTtl {
  import opened Prelude
  import opened ClientAccess

  const FLOOR_TTL: Time := 5 * SECOND
  const CEIL_TTL: Time := DAY
  const TWO63: int := 0x8000_0000_0000_0000
  const TWO64: int := 0x1_0000_0000_0000_0000

  /** The signed 64-bit value of a product or sum that may have overflowed. */
  function Wrap64(x: int): (r: int)
    ensures -TWO63 <= r < TWO63 && (x - r) % TWO64 == 0
    ensures -TWO63 <= x < TWO63 ==> r == x
  {
    var m := x % TWO64;
    if m < TWO63 then m else m - TWO64
  }

  predicate Digit(c: char) {
    '0' <= c <= '9'
  }

  function ParseDigits(s: string): Option<nat> {
    if s == "" then None
    else if !Digit(s[|s| - 1]) then None
    else
      var d := s[|s| - 1] as int - '0' as int;
      if |s| == 1 then Some(d)
      else match ParseDigits(s[..|s| - 1])
        case None => None
        case Some(n) => Some(10 * n + d)
  }

  /** Base 10, optional sign; None for a malformed or out-of-range number. */
  function ParseInt64(s: string): Option<int> {
    var negative := s != "" && s[0] == '-';
    var digits := if s != "" && (s[0] == '-' || s[0] == '+') then s[1..] else s;
    match ParseDigits(digits)
    case None => None
    case Some(n) =>
      var v: int := if negative then 0 - n else n;
      if -TWO63 <= v < TWO63 then Some(v) else None
  }

  function SplitComma(s: string): (r: seq<string>)
    ensures |r| > 0
  {
    if s == "" then [""]
    else
      var r := SplitComma(s[1..]);
      if s[0] == ',' then [""] + r else [[s[0]] + r[0]] + r[1..]
  }

  /** The TTL of a max-age value: malformed, negative or zero means none. */
  function MaxAge(value: string): Time {
    match ParseInt64(value)
    case None => 0
    case Some(seconds) => if seconds <= 0 then 0 else Wrap64(seconds * SECOND)
  }

  /** The TTL one directive states, if it states any. */
  function Stated(directive: string): Option<Time> {
    var d := TrimSpace(AsciiLower(directive));
    if d == "no-store" || d == "no-cache" then Some(0)
    else if "max-age=" <= d then Some(MaxAge(TrimSpace(d[|"max-age="|..])))
    else None
  }

  /** What the first directive that states a TTL says, or the fallback. */
  function FromDirectives(ds: seq<string>, fallback: Time): Time {
    if ds == [] then fallback
    else match Stated(ds[0])
      case Some(ttl) => ttl
      case None => FromDirectives(ds[1..], fallback)
  }

  function ParseTtl(header: string, fallback: Time): Time {
    if header == "" then fallback else FromDirectives(SplitComma(header), fallback)
  }

  function CacheTtl(header: string, fallback: Time): (ttl: Time)
    ensures 5 * SECOND <= ttl <= 24 * HOUR
  {
    var ttl := ParseTtl(header, fallback);
    if ttl < FLOOR_TTL then FLOOR_TTL else if ttl > CEIL_TTL then CEIL_TTL else ttl
  }

  /** The same loop over the directives as the program runs it. */
  method ParseCacheControl(header: string, fallback: Time) returns (ttl: Time)
    ensures ttl == ParseTtl(header, fallback)
  {
    if header == "" {
      return fallback;
    }
    var directives := SplitComma(header);
    for k := 0 to |directives|
      invariant FromDirectives(directives, fallback) == FromDirectives(directives[k..], fallback)
    {
      var d := TrimSpace(AsciiLower(directives[k]));
      assert directives[k..][0] == directives[k] && directives[k..][1..] == directives[k + 1..];
      if d == "no-store" || d == "no-cache" {
        return 0;
      }
      if "max-age=" <= d {
        var seconds := ParseInt64(TrimSpace(d[|"max-age="|..]));
        if seconds.None? || seconds.value <= 0 {
          return 0;
        }
        return Wrap64(seconds.value * SECOND);
      }
    }
    return fallback;
  }

  // ---------- max-age over its whole range ----------

  function Decimal(n: nat): (s: string)
    ensures s != "" && forall k :: 0 <= k < |s| ==> Digit(s[k])
  {
    var last := (n % 10 + '0' as int) as char;
    if n < 10 then [last] else Decimal(n / 10) + [last]
  }

  lemma {:induction false} DecimalRoundTrip(n: nat)
    ensures ParseDigits(Decimal(n)) == Some(n)
  {
    if n < 10 {
    } else {
      DecimalRoundTrip(n / 10);
      var s := Decimal(n);
      assert s[..|s| - 1] == Decimal(n / 10);
    }
  }

  lemma DigitsAreTrimmed(s: string)
    requires s != "" && !IsSpace(s[0]) && !IsSpace(s[|s| - 1])
    ensures TrimSpace(s) == s
  {
  }

  lemma {:induction false} NoCommaNoSplit(s: string)
    requires forall k :: 0 <= k < |s| ==> s[k] != ','
    ensures SplitComma(s) == [s]
  {
    if s == "" {
    } else {
      NoCommaNoSplit(s[1..]);
      assert [s[0]] + s[1..] == s;
    }
  }

  lemma DigitsParse(n: nat)
    ensures ParseInt64(TrimSpace(Decimal(n))) == if n < TWO63 then Some(n) else None
  {
    DigitsAreTrimmed(Decimal(n));
    DecimalRoundTrip(n);
  }

  lemma OneDirective(digits: string)
    requires digits != "" && forall k :: 0 <= k < |digits| ==> Digit(digits[k])
    ensures var header := "max-age=" + digits;
      SplitComma(header) == [header] && TrimSpace(AsciiLower(header)) == header
  {
    var header := "max-age=" + digits;
    NoCommaNoSplit(header);
    assert AsciiLower(header) == header;
    DigitsAreTrimmed(header);
  }

  lemma StatedMaxAge(n: nat)
    ensures Stated("max-age=" + Decimal(n)) == Some(MaxAge(TrimSpace(Decimal(n))))
  {
    var header := "max-age=" + Decimal(n);
    OneDirective(Decimal(n));
    assert header[0] == 'm' && header[|"max-age="|..] == Decimal(n);
  }

  /** A header stating max-age=n is read back exactly; only then does the 64-bit product come in. */
  lemma MaxAgeIsRead(n: nat, fallback: Time)
    ensures ParseTtl("max-age=" + Decimal(n), fallback) == if 0 < n < TWO63 then Wrap64(n * SECOND) else 0
  {
    OneDirective(Decimal(n));
    StatedMaxAge(n);
    DigitsParse(n);
  }

  /** The largest max-age whose nanosecond count still fits 64 bits. */
  const LARGEST_EXACT: nat := 9_223_372_036

  /** Up to there a document is cached for exactly the stated age, raised to five seconds and capped at a day. */
  lemma ModestMaxAgeIsHonoured(n: nat, fallback: Time)
    requires n <= LARGEST_EXACT
    ensures CacheTtl("max-age=" + Decimal(n), fallback) ==
      if n < 5 then 5 * SECOND else if n > 86_400 then 24 * HOUR else n * SECOND
  {
    MaxAgeIsRead(n, fallback);
  }

  /** Beyond, the cap at a day is not what happens to every huge max-age: it is reached exactly when the number
      fits 64 bits and the low 64 bits of its nanosecond count, read as a signed number, are at least a day. */
  lemma HugeMaxAgeIsCappedExactlyWhen(n: nat, fallback: Time)
    requires n >= 86_400
    ensures CacheTtl("max-age=" + Decimal(n), fallback) == 24 * HOUR
       <==> n < TWO63 && 24 * HOUR <= n * SECOND % TWO64 < TWO63
  {
    MaxAgeIsRead(n, fallback);
  }

  /** One second more than fits, and the document is cached for five seconds instead of a day. */
  lemma FirstMaxAgeThatWraps(fallback: Time)
    ensures CacheTtl("max-age=" + Decimal(LARGEST_EXACT + 1), fallback) == 5 * SECOND
  {
    MaxAgeIsRead(LARGEST_EXACT + 1, fallback);
  }
}
