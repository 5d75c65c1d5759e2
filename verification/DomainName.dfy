/** DNS names: a one-pass scanner against the grammar of dot-separated labels.

A string is a sequence of characters; anything outside ASCII letters, digits, hyphens and dots is refused, so
it does not matter here whether a character is a byte or a code point.
*/
module DomainName {

  const MAX_NAME: nat := 253
  const MAX_LABEL: nat := 63

  predicate LetterOrDigit(c: char) {
    'a' <= c <= 'z' || 'A' <= c <= 'Z' || '0' <= c <= '9'
  }

  /** The labels of a name: what lies between the dots. */
  function Labels(s: string): (r: seq<string>)
    ensures |r| > 0
  {
    if s == "" then [""]
    else
      var n := |s| - 1;
      var r := Labels(s[..n]);
      if s[n] == '.' then r + [""] else r[..|r| - 1] + [r[|r| - 1] + [s[n]]]
  }

  /** Letters, digits and hyphens, not beginning with a hyphen: a label that may still grow. */
  predicate LabelSoFar(l: string) {
    && |l| <= 63
    && (forall k :: 0 <= k < |l| ==> LetterOrDigit(l[k]) || l[k] == '-')
    && (l != "" ==> l[0] != '-')
  }

  predicate ValidLabel(l: string) {
    LabelSoFar(l) && l != "" && l[|l| - 1] != '-'
  }

  /** The grammar of section 2.3.4 of RFC 1035 with the relaxation of section 2.1 of RFC 1123. */
  predicate IsDnsName(s: string) {
    |s| <= 253 && forall k :: 0 <= k < |Labels(s)| ==> ValidLabel(Labels(s)[k])
  }

  function Last(r: seq<string>): string
    requires |r| > 0
  {
    r[|r| - 1]
  }

  /** The last label ends where the string does. */
  lemma {:induction false} LastLabel(s: string)
    ensures |Last(Labels(s))| <= |s| && s[|s| - |Last(Labels(s))|..] == Last(Labels(s))
  {
    if s != "" && s[|s| - 1] != '.' {
      LastLabel(s[..|s| - 1]);
    }
  }

  /** All labels but the last are complete, and the last is fine so far. */
  predicate LabelsOk(r: seq<string>)
    requires |r| > 0
  {
    (forall k :: 0 <= k < |r| - 1 ==> ValidLabel(r[k])) && LabelSoFar(Last(r))
  }

  predicate PrefixOk(s: string) {
    LabelsOk(Labels(s))
  }

  lemma DotEndsLabel(r: seq<string>)
    requires |r| > 0
    ensures LabelsOk(r + [""]) <==> LabelsOk(r) && ValidLabel(Last(r))
  {
    var q := r + [""];
    if LabelsOk(q) {
      assert forall k :: 0 <= k < |r| ==> r[k] == q[k];
    }
  }

  lemma CharExtendsLabel(r: seq<string>, c: char)
    requires |r| > 0
    ensures LabelsOk(r[..|r| - 1] + [Last(r) + [c]]) <==> LabelsOk(r) && Extends(Last(r), c)
  {
    var q, l := r[..|r| - 1] + [Last(r) + [c]], Last(r);
    assert forall k :: 0 <= k < |r| - 1 ==> r[k] == q[k];
    assert forall k :: 0 <= k < |l| ==> l[k] == (l + [c])[k];
    assert (l + [c])[|l|] == c;
  }

  /** The character may continue this label. */
  predicate Extends(l: string, c: char) {
    |l| < 63 && (LetterOrDigit(c) || (c == '-' && l != ""))
  }

  /** How one more character extends an acceptable prefix. */
  lemma OneMore(s: string, c: char)
    ensures var l := Last(Labels(s));
      PrefixOk(s + [c]) <==> PrefixOk(s) && (if c == '.' then ValidLabel(l) else Extends(l, c))
    ensures Last(Labels(s + [c])) == if c == '.' then "" else Last(Labels(s)) + [c]
  {
    var t := s + [c];
    assert t[..|s|] == s && t[|s|] == c;
    DotEndsLabel(Labels(s));
    CharExtendsLabel(Labels(s), c);
  }

  /** Nothing that follows can repair a broken prefix. */
  lemma BrokenStep(s: string, n: nat)
    requires n < |s| && !PrefixOk(s[..n])
    ensures !PrefixOk(s[..n + 1])
  {
    assert s[..n + 1] == s[..n] + [s[n]];
    OneMore(s[..n], s[n]);
  }

  lemma {:induction false} BrokenStaysBroken(s: string, n: nat)
    requires n <= |s| && !PrefixOk(s[..n])
    ensures !IsDnsName(s)
    decreases |s| - n
  {
    if n == |s| {
      assert s[..n] == s;
    } else {
      BrokenStep(s, n);
      BrokenStaysBroken(s, n + 1);
    }
  }

  lemma LastCharacter(s: string)
    requires Last(Labels(s)) != ""
    ensures s != "" && Last(Labels(s))[|Last(Labels(s))| - 1] == s[|s| - 1]
  {
    LastLabel(s);
    var l := Last(Labels(s));
    assert l[|l| - 1] == s[|s| - |l|..][|l| - 1];
  }

  /** One character of the scan, in terms of the current label's size and the character before. */
  lemma ScanStep(name: string, i: nat)
    requires i < |name| && PrefixOk(name[..i])
    ensures var l := Last(Labels(name[..i]));
      && (PrefixOk(name[..i + 1]) <==>
            if name[i] == '.' then l != "" && name[i - 1] != '-' else Extends(l, name[i]))
      && |Last(Labels(name[..i + 1]))| == if name[i] == '.' then 0 else |l| + 1
  {
    var front := name[..i];
    assert name[..i + 1] == front + [name[i]];
    OneMore(front, name[i]);
    if Last(Labels(front)) != "" {
      LastCharacter(front);
    }
  }

  /** Accepts exactly the DNS names, in one pass with one counter. */
  method Valid(name: string) returns (ok: bool)
    ensures ok <==> IsDnsName(name)
  {
    if name == "" || |name| > MAX_NAME {
      assert name == "" ==> !ValidLabel(Labels(name)[0]);
      return false;
    }
    var size := 0;
    for i := 0 to |name|
      invariant PrefixOk(name[..i])
      invariant size == |Last(Labels(name[..i]))|
    {
      var c := name[i];
      ScanStep(name, i);
      if !PrefixOk(name[..i + 1]) {
        BrokenStaysBroken(name, i + 1);
      }
      if c == '.' {
        if size == 0 || name[i - 1] == '-' {
          return false;
        }
        size := 0;
        continue;
      } else if c == '-' {
        if size == 0 {
          return false;
        }
      } else if !LetterOrDigit(c) {
        return false;
      }
      size := size + 1;
      if size > MAX_LABEL {
        return false;
      }
    }
    assert name[..|name|] == name;
    LastLabel(name);
    return size > 0 && name[|name| - 1] != '-';
  }

  // ---------- subdomains ----------

  function Join(labels: seq<string>): string
    requires |labels| > 0
  {
    if |labels| == 1 then labels[0] else Join(labels[..|labels| - 1]) + "." + labels[|labels| - 1]
  }

  lemma {:induction false} JoinGrows(labels: seq<string>, tail: string)
    requires |labels| > 0
    ensures Join(labels[..|labels| - 1] + [Last(labels) + tail]) == Join(labels) + tail
  {
    var n := |labels| - 1;
    var grown := labels[..n] + [labels[n] + tail];
    if n > 0 {
      assert grown[..n] == labels[..n];
      assert Join(labels[..n]) + "." + (labels[n] + tail) == Join(labels[..n]) + "." + labels[n] + tail;
    }
  }

  /** Splitting loses nothing. */
  lemma {:induction false} JoinLabels(s: string)
    ensures Join(Labels(s)) == s
  {
    if s == "" {
    } else {
      var n := |s| - 1;
      var front, r := s[..n], Labels(s[..n]);
      JoinLabels(front);
      assert s == front + [s[n]];
      if s[n] == '.' {
        assert (r + [""])[..|r|] == r;
        assert Join(r + [""]) == Join(r) + "." + "";
      } else {
        JoinGrows(r, [s[n]]);
      }
    }
  }

  lemma {:induction false} JoinAppend(a: seq<string>, b: seq<string>)
    requires |a| > 0 && |b| > 0
    ensures Join(a + b) == Join(a) + "." + Join(b)
    decreases |b|
  {
    var n := |b| - 1;
    assert (a + b)[..|a| + n] == a + b[..n];
    if n > 0 {
      JoinAppend(a, b[..n]);
      assert Join(a) + "." + Join(b[..n]) + "." + b[n] == Join(a) + "." + (Join(b[..n]) + "." + b[n]);
    } else {
      assert a + b[..n] == a;
    }
  }

  function Extended(r: seq<string>, c: char): seq<string>
    requires |r| > 0
  {
    if c == '.' then r + [""] else r[..|r| - 1] + [Last(r) + [c]]
  }

  lemma LabelsOfLonger(s: string, c: char)
    ensures Labels(s + [c]) == Extended(Labels(s), c)
  {
    var t := s + [c];
    assert t[..|s|] == s && t[|s|] == c;
  }

  lemma ExtendedAppend(p: seq<string>, q: seq<string>, c: char)
    requires |q| > 0
    ensures Extended(p + q, c) == p + Extended(q, c)
  {
    assert (p + q)[..|p + q| - 1] == p + q[..|q| - 1];
  }

  lemma {:induction false} LabelsAppend(a: string, b: string)
    ensures Labels(a + "." + b) == Labels(a) + Labels(b)
    decreases |b|
  {
    if b == "" {
      LabelsOfLonger(a, '.');
      assert a + "." + b == a + ['.'];
    } else {
      var front, c := b[..|b| - 1], b[|b| - 1];
      assert b == front + [c];
      assert a + "." + b == (a + "." + front) + [c];
      LabelsAppend(a, front);
      LabelsOfLonger(a + "." + front, c);
      LabelsOfLonger(front, c);
      ExtendedAppend(Labels(a), Labels(front), c);
    }
  }

  /** Strictly below `base`, by whole labels. */
  predicate ProperSubdomain(domain: string, base: string) {
    var d, b := Labels(domain), Labels(base);
    |b| < |d| && d[|d| - |b|..] == b
  }

  predicate HasSuffix(s: string, suffix: string) {
    |suffix| <= |s| && s[|s| - |suffix|..] == suffix
  }

  lemma SuffixGivesSubdomain(domain: string, base: string)
    requires HasSuffix(domain, "." + base)
    ensures ProperSubdomain(domain, base)
  {
    var a := domain[..|domain| - |base| - 1];
    assert domain == a + "." + base;
    LabelsAppend(a, base);
  }

  lemma SuffixOfConcat(x: string, dot: string, y: string)
    ensures HasSuffix(x + dot + y, dot + y)
  {
    assert x + dot + y == x + (dot + y);
  }

  lemma JoinedSuffix(a: seq<string>, b: seq<string>)
    requires |a| > 0 && |b| > 0
    ensures HasSuffix(Join(a + b), "." + Join(b))
  {
    JoinAppend(a, b);
    SuffixOfConcat(Join(a), ".", Join(b));
  }

  lemma SubdomainGivesSuffix(domain: string, base: string)
    requires ProperSubdomain(domain, base)
    ensures HasSuffix(domain, "." + base)
  {
    var d, b := Labels(domain), Labels(base);
    assert d == d[..|d| - |b|] + b;
    JoinedSuffix(d[..|d| - |b|], b);
    JoinLabels(domain);
    JoinLabels(base);
  }

  /** Testing for the suffix "." + base is testing for a proper subdomain by whole labels, for all strings; the base
      itself never passes. */
  lemma DotSuffixMeansSubdomain(domain: string, base: string)
    ensures HasSuffix(domain, "." + base) <==> ProperSubdomain(domain, base)
    ensures domain == base ==> !HasSuffix(domain, "." + base)
  {
    if HasSuffix(domain, "." + base) {
      SuffixGivesSubdomain(domain, base);
    }
    if ProperSubdomain(domain, base) {
      SubdomainGivesSuffix(domain, base);
    }
  }
}
