/** Which accounts may use a client: building a policy from its entries and evaluating it.

Strings are sequences of code points.
*/
module ClientAccess {
  import opened DomainName

  // ---------- ASCII case and white space ----------

  function Lower(c: char): char {
    if 'A' <= c <= 'Z' then (c as int + 32) as char else c
  }

  function AsciiLower(s: string): (r: string)
    ensures |r| == |s| && forall k :: 0 <= k < |s| ==> r[k] == Lower(s[k])
  {
    seq(|s|, k requires 0 <= k < |s| => Lower(s[k]))
  }

  /** Returns the string itself if nothing is to be folded, else folds a copy from the first capital on. */
  method FoldCase(s: string) returns (r: string)
    ensures r == AsciiLower(s)
  {
    for i := 0 to |s|
      invariant forall k :: 0 <= k < i ==> !('A' <= s[k] <= 'Z')
    {
      if 'A' <= s[i] <= 'Z' {
        var b := new char[|s|](k requires 0 <= k < |s| => s[k]);
        for j := i to |s|
          invariant forall k :: 0 <= k < j ==> b[k] == Lower(s[k])
          invariant forall k :: j <= k < |s| ==> b[k] == s[k]
        {
          if 'A' <= b[j] <= 'Z' {
            b[j] := (b[j] as int + 32) as char;
          }
        }
        return b[..];
      }
    }
    return s;
  }

  predicate IsSpace(c: char) {
    || '\t' <= c <= '\r' || c == ' ' || c == '\U{85}' || c == '\U{A0}' || c == '\U{1680}' ||
        '\U{2000}' <= c <= '\U{200A}'
    || c == '\U{2028}' || c == '\U{2029}' || c == '\U{202F}' || c == '\U{205F}' || c == '\U{3000}'
  }

  function TrimLeft(s: string): string {
    if s != "" && IsSpace(s[0]) then TrimLeft(s[1..]) else s
  }

  function TrimRight(s: string): string {
    if s != "" && IsSpace(s[|s| - 1]) then TrimRight(s[..|s| - 1]) else s
  }

  function TrimSpace(s: string): string {
    TrimRight(TrimLeft(s))
  }

  function TrimPrefix(s: string, prefix: string): string {
    if prefix <= s then s[|prefix|..] else s
  }

  predicate SameLetters(a: string, b: string) {
    AsciiLower(a) == AsciiLower(b)
  }

  lemma {:induction false} TrimLeftFolds(s: string)
    ensures AsciiLower(TrimLeft(s)) == TrimLeft(AsciiLower(s))
  {
    if s == "" {
    } else {
      assert AsciiLower(s)[1..] == AsciiLower(s[1..]);
      if IsSpace(s[0]) {
        TrimLeftFolds(s[1..]);
      }
    }
  }

  lemma {:induction false} TrimRightFolds(s: string)
    ensures AsciiLower(TrimRight(s)) == TrimRight(AsciiLower(s))
  {
    if s == "" {
    } else {
      var n := |s| - 1;
      assert AsciiLower(s)[..n] == AsciiLower(s[..n]);
      if IsSpace(s[n]) {
        TrimRightFolds(s[..n]);
      }
    }
  }

  lemma TrimFolds(a: string, b: string)
    requires SameLetters(a, b)
    ensures AsciiLower(TrimSpace(a)) == AsciiLower(TrimSpace(b))
  {
    TrimLeftFolds(a);
    TrimLeftFolds(b);
    TrimRightFolds(TrimLeft(a));
    TrimRightFolds(TrimLeft(b));
  }

  lemma LowerIsIdempotent(s: string)
    ensures AsciiLower(AsciiLower(s)) == AsciiLower(s)
  {
  }

  // ---------- entries ----------

  datatype Problem =
    | EmptyEntry | WildcardHere | StrayStar | LeadingDot | NotBare
    | InvalidDomain | NoDot | NotAnAddress | NothingAllowed

  datatype Outcome<T> = Ok(value: T) | Bad(problem: Problem)

  predicate ContainsAny(s: string, chars: string) {
    exists k :: 0 <= k < |s| && s[k] in chars
  }

  function NormalizeDomain(entry: string, allowWildcard: bool): (r: Outcome<string>) {
    var d := TrimPrefix(AsciiLower(TrimSpace(entry)), "@");
    var base := TrimPrefix(d, "*.");
    if d == "" then Bad(EmptyEntry)
    else if "*." <= d && !allowWildcard then Bad(WildcardHere)
    else if '*' in base then Bad(StrayStar)
    else if "." <= base then Bad(LeadingDot)
    else if ContainsAny(base, "@ \t") then Bad(NotBare)
    else if !IsDnsName(base) then Bad(InvalidDomain)
    else if '.' !in base then Bad(NoDot)
    else Ok(if "*." <= d then "." + base else base)
  }

  function LastAt(s: string): (i: int)
    ensures -1 <= i < |s|
    ensures i >= 0 ==> s[i] == '@'
    ensures forall k :: i < k < |s| ==> s[k] != '@'
  {
    if s == "" then -1 else if s[|s| - 1] == '@' then |s| - 1 else LastAt(s[..|s| - 1])
  }

  function NormalizeEmail(entry: string): (r: Outcome<string>) {
    var e := AsciiLower(TrimSpace(entry));
    var i := LastAt(e);
    if i < 0 || '@' in e[..i] then Bad(NotAnAddress)
    else if i == 0 || ContainsAny(e[..i], " \t\r\n") then Bad(NotAnAddress)
    else if !IsDnsName(e[i + 1..]) || '.' !in e[i + 1..] then Bad(InvalidDomain)
    else Ok(e)
  }

  /** The lowercased domain of an address, or "" if it has no valid one. */
  function EmailDomain(email: string): (d: string)
    ensures d != "" ==> AsciiLower(d) == d
  {
    var i := LastAt(email);
    if i < 0 || !IsDnsName(email[i + 1..]) then ""
    else
      LowerIsIdempotent(email[i + 1..]);
      AsciiLower(email[i + 1..])
  }

  lemma EntriesIgnoreCase(a: string, b: string, allowWildcard: bool)
    requires SameLetters(a, b)
    ensures NormalizeDomain(a, allowWildcard) == NormalizeDomain(b, allowWildcard)
    ensures NormalizeEmail(a) == NormalizeEmail(b)
  {
    TrimFolds(a, b);
  }

  // ---------- policies ----------

  datatype Rules = Rules(hostedDomains: seq<string>, emailDomains: seq<string>, emails: seq<string>)

  datatype Policy =
    | NoPolicy
    | Public
    | Lists(hostedDomains: set<string>, emailDomains: seq<string>, emails: set<string>, denyEmails: set<string>)

  datatype Subject = Subject(email: string, emailVerified: bool, hostedDomain: string)

  datatype Decision = Allowed | DenyListed | NotAllowed | EmailUnverified

  function DomainsOf(entries: seq<string>, wild: bool): set<string> {
    set k | 0 <= k < |entries| && NormalizeDomain(entries[k], wild).Ok? :: NormalizeDomain(entries[k], wild).value
  }

  function EmailsOf(entries: seq<string>): set<string> {
    set k | 0 <= k < |entries| && NormalizeEmail(entries[k]).Ok? :: NormalizeEmail(entries[k]).value
  }

  predicate DomainsOk(entries: seq<string>, wild: bool) {
    forall k :: 0 <= k < |entries| ==> NormalizeDomain(entries[k], wild).Ok?
  }

  predicate EmailsOk(entries: seq<string>) {
    forall k :: 0 <= k < |entries| ==> NormalizeEmail(entries[k]).Ok?
  }

  function Members(s: seq<string>): set<string> {
    set x | x in s
  }

  predicate Buildable(allow: Rules, deny: seq<string>) {
    && DomainsOk(allow.hostedDomains, false) && DomainsOk(allow.emailDomains, true) && EmailsOk(allow.emails) &&
         EmailsOk(deny)
    && (allow.hostedDomains != [] || allow.emailDomains != [] || allow.emails != [])
  }

  /** The policy holds exactly the normalized entries. */
  predicate BuiltFrom(p: Policy, allow: Rules, deny: seq<string>) {
    && p.Lists?
    && p.hostedDomains == DomainsOf(allow.hostedDomains, false)
    && Members(p.emailDomains) == DomainsOf(allow.emailDomains, true)
    && p.emails == EmailsOf(allow.emails)
    && p.denyEmails == EmailsOf(deny)
  }

  lemma OneMoreDomain(entries: seq<string>, e: string, wild: bool)
    ensures DomainsOk(entries + [e], wild) <==> DomainsOk(entries, wild) && NormalizeDomain(e, wild).Ok?
    ensures NormalizeDomain(e, wild).Ok? ==>
      DomainsOf(entries + [e], wild) == DomainsOf(entries, wild) + {NormalizeDomain(e, wild).value}
  {
    var longer := entries + [e];
    assert longer[|entries|] == e && forall k :: 0 <= k < |entries| ==> longer[k] == entries[k];
  }

  lemma OneMoreEmail(entries: seq<string>, e: string)
    ensures EmailsOk(entries + [e]) <==> EmailsOk(entries) && NormalizeEmail(e).Ok?
    ensures NormalizeEmail(e).Ok? ==> EmailsOf(entries + [e]) == EmailsOf(entries) + {NormalizeEmail(e).value}
  {
    var longer := entries + [e];
    assert longer[|entries|] == e && forall k :: 0 <= k < |entries| ==> longer[k] == entries[k];
  }

  /** One more entry of a list that is read from the front. */
  lemma NextDomain(entries: seq<string>, k: nat, wild: bool)
    requires k < |entries|
    ensures DomainsOk(entries[..k + 1], wild) <==>
      DomainsOk(entries[..k], wild) && NormalizeDomain(entries[k], wild).Ok?
    ensures NormalizeDomain(entries[k], wild).Ok? ==>
      DomainsOf(entries[..k + 1], wild) == DomainsOf(entries[..k], wild) + {NormalizeDomain(entries[k], wild).value}
    ensures DomainsOk(entries, wild) ==> NormalizeDomain(entries[k], wild).Ok?
  {
    assert entries[..k + 1] == entries[..k] + [entries[k]];
    OneMoreDomain(entries[..k], entries[k], wild);
  }

  lemma NextEmail(entries: seq<string>, k: nat)
    requires k < |entries|
    ensures EmailsOk(entries[..k + 1]) <==> EmailsOk(entries[..k]) && NormalizeEmail(entries[k]).Ok?
    ensures NormalizeEmail(entries[k]).Ok? ==>
      EmailsOf(entries[..k + 1]) == EmailsOf(entries[..k]) + {NormalizeEmail(entries[k]).value}
    ensures EmailsOk(entries) ==> NormalizeEmail(entries[k]).Ok?
  {
    assert entries[..k + 1] == entries[..k] + [entries[k]];
    OneMoreEmail(entries[..k], entries[k]);
  }

  lemma EntriesRemain(entries: seq<string>, wild: bool)
    ensures DomainsOk(entries, wild) ==> (DomainsOf(entries, wild) == {} <==> entries == [])
    ensures EmailsOk(entries) ==> (EmailsOf(entries) == {} <==> entries == [])
    ensures Members(entries) == {} <==> entries == []
  {
    if entries != [] {
      assert entries[0] in Members(entries);
      assert DomainsOk(entries, wild) ==> NormalizeDomain(entries[0], wild).value in DomainsOf(entries, wild);
      assert EmailsOk(entries) ==> NormalizeEmail(entries[0]).value in EmailsOf(entries);
    }
  }

  predicate Distinct(s: seq<string>) {
    forall j, k :: 0 <= j < k < |s| ==> s[j] != s[k]
  }

  /** Appends an entry unless it is there already. */
  function AddUnique(unique: seq<string>, d: string): (r: seq<string>)
    ensures Members(r) == Members(unique) + {d}
    ensures Distinct(unique) ==> Distinct(r)
  {
    if d in unique then unique else unique + [d]
  }

  /** Collects the normalized entries, keeping the first of each in order. */
  method NormalizeDomains(entries: seq<string>, wild: bool) returns (r: Outcome<seq<string>>)
    ensures r.Ok? <==> DomainsOk(entries, wild)
    ensures r.Ok? ==> Members(r.value) == DomainsOf(entries, wild) && Distinct(r.value)
  {
    var unique := [];
    for k := 0 to |entries|
      invariant DomainsOk(entries[..k], wild) && Members(unique) == DomainsOf(entries[..k], wild) && Distinct(unique)
    {
      NextDomain(entries, k, wild);
      var n := NormalizeDomain(entries[k], wild);
      if n.Bad? {
        return Bad(n.problem);
      }
      unique := AddUnique(unique, n.value);
    }
    assert entries[..|entries|] == entries;
    return Ok(unique);
  }

  method NormalizeEmails(entries: seq<string>) returns (r: Outcome<set<string>>)
    ensures r.Ok? <==> EmailsOk(entries)
    ensures r.Ok? ==> r.value == EmailsOf(entries)
  {
    var seen := {};
    for k := 0 to |entries|
      invariant EmailsOk(entries[..k]) && seen == EmailsOf(entries[..k])
    {
      NextEmail(entries, k);
      var n := NormalizeEmail(entries[k]);
      if n.Bad? {
        return Bad(n.problem);
      }
      seen := seen + {n.value};
    }
    assert entries[..|entries|] == entries;
    return Ok(seen);
  }

  /** Validates and normalizes; an allow block that lists nothing is refused. */
  method New(allow: Rules, deny: seq<string>) returns (r: Outcome<Policy>)
    ensures r.Ok? <==> Buildable(allow, deny)
    ensures r.Ok? ==> BuiltFrom(r.value, allow, deny)
  {
    var hosted := NormalizeDomains(allow.hostedDomains, false);
    if hosted.Bad? { return Bad(hosted.problem); }
    var domains := NormalizeDomains(allow.emailDomains, true);
    if domains.Bad? { return Bad(domains.problem); }
    var emails := NormalizeEmails(allow.emails);
    if emails.Bad? { return Bad(emails.problem); }
    var denied := NormalizeEmails(deny);
    if denied.Bad? { return Bad(denied.problem); }
    EntriesRemain(allow.hostedDomains, false);
    EntriesRemain(allow.emailDomains, true);
    EntriesRemain(domains.value, true);
    EntriesRemain(allow.emails, false);
    if Members(hosted.value) == {} && domains.value == [] && emails.value == {} {
      return Bad(NothingAllowed);
    }
    return Ok(Lists(Members(hosted.value), domains.value, emails.value, denied.value));
  }

  predicate EntryMatches(entry: string, domain: string) {
    if "." <= entry then HasSuffix(domain, entry) else entry == domain
  }

  predicate AnyMatches(entries: seq<string>, domain: string) {
    exists k :: 0 <= k < |entries| && EntryMatches(entries[k], domain)
  }

  predicate MatchesEmail(p: Policy, email: string)
    requires p.Lists?
  {
    || email in p.emails
    || (EmailDomain(email) != "" && AnyMatches(p.emailDomains, EmailDomain(email)))
  }

  function Evaluate(p: Policy, s: Subject): (d: Decision) {
    if !p.Lists? then Allowed
    else
      var email, hd := AsciiLower(s.email), AsciiLower(s.hostedDomain);
      if email in p.denyEmails then DenyListed
      else if hd != "" && hd in p.hostedDomains then Allowed
      else if !MatchesEmail(p, email) then NotAllowed
      else if !s.emailVerified then EmailUnverified
      else Allowed
  }

  // ---------- what a verdict means ----------

  /** An entry covers a domain: the domain itself, or for a wildcard everything strictly below its base. */
  predicate Covers(entry: string, domain: string) {
    if "." <= entry then ProperSubdomain(domain, entry[1..]) else entry == domain
  }

  ghost predicate AnyCovers(entries: set<string>, domain: string) {
    exists d :: d in entries && Covers(d, domain)
  }

  /** The meaning of a policy, on the sets of normalized entries alone. */
  ghost function Verdict(allow: Rules, deny: seq<string>, s: Subject): Decision {
    var email, hd := AsciiLower(s.email), AsciiLower(s.hostedDomain);
    var byHost := hd != "" && hd in DomainsOf(allow.hostedDomains, false);
    var byEmail := email in EmailsOf(allow.emails)
                   || (EmailDomain(email) != "" && AnyCovers(DomainsOf(allow.emailDomains, true), EmailDomain(email)));
    if email in EmailsOf(deny) then DenyListed
    else if byHost || (byEmail && s.emailVerified) then Allowed
    else if byEmail then EmailUnverified
    else NotAllowed
  }

  lemma SuffixEntryCovers(entry: string, domain: string)
    ensures EntryMatches(entry, domain) <==> Covers(entry, domain)
  {
    if "." <= entry {
      DotSuffixMeansSubdomain(domain, entry[1..]);
      assert entry == "." + entry[1..];
    }
  }

  lemma SomeEntryCovers(entries: seq<string>, domain: string)
    ensures AnyMatches(entries, domain) <==> AnyCovers(Members(entries), domain)
  {
    if AnyMatches(entries, domain) {
      var k :| 0 <= k < |entries| && EntryMatches(entries[k], domain);
      SuffixEntryCovers(entries[k], domain);
      assert entries[k] in Members(entries);
    }
    if AnyCovers(Members(entries), domain) {
      var d :| d in Members(entries) && Covers(d, domain);
      var k :| 0 <= k < |entries| && entries[k] == d;
      SuffixEntryCovers(entries[k], domain);
    }
  }

  /** Evaluating a built policy gives exactly the meaning of its entries: a stored wildcard matches a domain
      exactly when the domain lies strictly below its base by whole labels. */
  lemma EvaluateMeansVerdict(p: Policy, allow: Rules, deny: seq<string>, s: Subject)
    requires BuiltFrom(p, allow, deny)
    ensures Evaluate(p, s) == Verdict(allow, deny, s)
  {
    SomeEntryCovers(p.emailDomains, EmailDomain(AsciiLower(s.email)));
  }

  /** Every entry of one list occurs in the other, up to the case of ASCII letters. */
  predicate Included(xs: seq<string>, ys: seq<string>) {
    forall k :: 0 <= k < |xs| ==> exists j :: 0 <= j < |ys| && SameLetters(xs[k], ys[j])
  }

  lemma IncludedGivesSubset(xs: seq<string>, ys: seq<string>, wild: bool)
    requires Included(xs, ys)
    ensures DomainsOf(xs, wild) <= DomainsOf(ys, wild) && EmailsOf(xs) <= EmailsOf(ys)
  {
    forall k | 0 <= k < |xs|
      ensures NormalizeDomain(xs[k], wild).Ok? ==> NormalizeDomain(xs[k], wild).value in DomainsOf(ys, wild)
      ensures NormalizeEmail(xs[k]).Ok? ==> NormalizeEmail(xs[k]).value in EmailsOf(ys)
    {
      var j :| 0 <= j < |ys| && SameLetters(xs[k], ys[j]);
      EntriesIgnoreCase(xs[k], ys[j], wild);
    }
  }

  predicate RulesIncluded(a: Rules, b: Rules) {
    Included(a.hostedDomains, b.hostedDomains) && Included(a.emailDomains, b.emailDomains) &&
        Included(a.emails, b.emails)
  }

  lemma RulesGiveSubsets(a: Rules, b: Rules)
    requires RulesIncluded(a, b)
    ensures DomainsOf(a.hostedDomains, false) <= DomainsOf(b.hostedDomains, false)
    ensures DomainsOf(a.emailDomains, true) <= DomainsOf(b.emailDomains, true)
    ensures EmailsOf(a.emails) <= EmailsOf(b.emails)
  {
    IncludedGivesSubset(a.hostedDomains, b.hostedDomains, false);
    IncludedGivesSubset(a.emailDomains, b.emailDomains, true);
    IncludedGivesSubset(a.emails, b.emails, false);
  }

  /** More allow entries never refuse an account, more deny entries never admit one. */
  lemma VerdictIsMonotone(p: Policy, allow: Rules, deny: seq<string>, q: Policy, allow2: Rules, deny2: seq<string>,
                          s: Subject)
    requires BuiltFrom(p, allow, deny) && BuiltFrom(q, allow2, deny2)
    requires RulesIncluded(allow, allow2) && Included(deny2, deny)
    ensures Evaluate(p, s) == Allowed ==> Evaluate(q, s) == Allowed
  {
    EvaluateMeansVerdict(p, allow, deny, s);
    EvaluateMeansVerdict(q, allow2, deny2, s);
    RulesGiveSubsets(allow, allow2);
    IncludedGivesSubset(deny2, deny, false);
  }

  /** Reordering or repeating entries, or changing the case of ASCII letters in entries, address or hosted
      domain, never changes the verdict. */
  lemma OrderRepetitionAndCaseDoNotMatter(p: Policy, allow: Rules, deny: seq<string>, q: Policy, allow2: Rules,
                                          deny2: seq<string>,
                                          s: Subject, s2: Subject)
    requires BuiltFrom(p, allow, deny) && BuiltFrom(q, allow2, deny2)
    requires RulesIncluded(allow, allow2) && RulesIncluded(allow2, allow) && Included(deny, deny2) &&
      Included(deny2, deny)
    requires SameLetters(s.email, s2.email) && SameLetters(s.hostedDomain, s2.hostedDomain) &&
      s.emailVerified == s2.emailVerified
    ensures Evaluate(p, s) == Evaluate(q, s2)
  {
    EvaluateMeansVerdict(p, allow, deny, s);
    EvaluateMeansVerdict(q, allow2, deny2, s2);
    RulesGiveSubsets(allow, allow2);
    RulesGiveSubsets(allow2, allow);
    IncludedGivesSubset(deny, deny2, false);
    IncludedGivesSubset(deny2, deny, false);
  }

  /** `email_unverified` is the reason exactly when verifying the address would admit the refused account. */
  lemma UnverifiedMeansVerifyingHelps(p: Policy, s: Subject)
    ensures Evaluate(p, s) == EmailUnverified <==>
      Evaluate(p, s) != Allowed && Evaluate(p, s.(emailVerified := true)) == Allowed
  {
  }

  lemma {:induction false} DotsSeparateLabels(s: string)
    ensures '.' in s <==> |Labels(s)| > 1
  {
    if s == "" {
    } else {
      DotsSeparateLabels(s[..|s| - 1]);
      assert s == s[..|s| - 1] + [s[|s| - 1]];
    }
  }

  predicate Folded(s: string) {
    forall k :: 0 <= k < |s| ==> Lower(s[k]) == s[k]
  }

  lemma FoldedMeansLower(s: string)
    ensures Folded(AsciiLower(s))
    ensures Folded(s) ==> AsciiLower(s) == s
  {
  }

  lemma FoldedParts(s: string, prefix: string)
    requires Folded(s)
    ensures Folded(TrimPrefix(s, prefix)) && Folded("." + s)
  {
    var dotted := "." + s;
    assert forall k :: 0 < k < |dotted| ==> dotted[k] == s[k - 1];
  }
}
