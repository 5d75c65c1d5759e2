/** What the entries of a client's access policy mean, as they are written: which spellings are accepted, and which
accounts each lets in. */
module ClientEntries {
  import opened DomainName
  import opened ClientAccess

  // ---------- letters and white space ----------

  /** Folding maps the twenty-six capitals to their small letters and leaves every other character alone. */
  lemma LowerTable(c: char)
    ensures var capitals, small := "ABCDEFGHIJKLMNOPQRSTUVWXYZ", "abcdefghijklmnopqrstuvwxyz";
      if exists k :: 0 <= k < 26 && capitals[k] == c
      then exists k :: 0 <= k < 26 && capitals[k] == c && small[k] == Lower(c)
      else Lower(c) == c
  {
    var capitals, small := "ABCDEFGHIJKLMNOPQRSTUVWXYZ", "abcdefghijklmnopqrstuvwxyz";
    if 'A' <= c <= 'Z' {
      var k := c as int - 'A' as int;
      assert capitals[k] == c && small[k] == Lower(c);
    }
  }

  /** The white space of Unicode. */
  lemma SpaceTable(c: char)
    ensures IsSpace(c) <==>
      c in "\t\n\r \U{B}\U{C}\U{85}\U{A0}\U{1680}\U{2000}\U{2001}\U{2002}\U{2003}\U{2004}\U{2005}\U{2006}" ||
      c in "\U{2007}\U{2008}\U{2009}\U{200A}\U{2028}\U{2029}\U{202F}\U{205F}\U{3000}"
  {
  }

  predicate Blank(s: string) {
    forall k :: 0 <= k < |s| ==> IsSpace(s[k])
  }

  /** Neither begins nor ends with white space. */
  predicate Bare(s: string) {
    s != "" ==> !IsSpace(s[0]) && !IsSpace(s[|s| - 1])
  }

  lemma {:induction false} LeftIsTrimmed(left: string, s: string)
    requires Blank(left) && (s != "" ==> !IsSpace(s[0]))
    ensures TrimLeft(left + s) == s
  {
    if left == "" {
      assert left + s == s;
    } else {
      assert (left + s)[1..] == left[1..] + s;
      LeftIsTrimmed(left[1..], s);
    }
  }

  lemma {:induction false} RightIsTrimmed(s: string, right: string)
    requires Blank(right) && (s != "" ==> !IsSpace(s[|s| - 1]))
    ensures TrimRight(s + right) == s
  {
    if right == "" {
      assert s + right == s;
    } else {
      var n := |right| - 1;
      assert (s + right)[..|s + right| - 1] == s + right[..n];
      RightIsTrimmed(s, right[..n]);
    }
  }

  lemma {:induction false} LeftEnd(s: string) returns (i: nat)
    ensures i <= |s| && Blank(s[..i]) && s[i..] == TrimLeft(s)
  {
    if s != "" && IsSpace(s[0]) {
      var n := LeftEnd(s[1..]);
      i := n + 1;
      assert s[..i] == [s[0]] + s[1..][..n] && s[i..] == s[1..][n..];
    } else {
      i := 0;
    }
  }

  lemma {:induction false} RightEnd(s: string) returns (j: nat)
    ensures j <= |s| && Blank(s[j..]) && s[..j] == TrimRight(s)
    ensures j > 0 ==> !IsSpace(s[j - 1])
  {
    if s != "" && IsSpace(s[|s| - 1]) {
      var front := s[..|s| - 1];
      j := RightEnd(front);
      assert s[j..] == front[j..] + [s[|s| - 1]] && s[..j] == front[..j];
    } else {
      j := |s|;
    }
  }

  lemma {:induction false} NothingLeftOnTheLeft(s: string)
    ensures TrimLeft(s) != "" ==> !IsSpace(TrimLeft(s)[0])
  {
    if s != "" && IsSpace(s[0]) {
      NothingLeftOnTheLeft(s[1..]);
    }
  }

  /** There is nothing but white space before `i` and from `j` on. */
  predicate Padded(s: string, i: int, j: int) {
    0 <= i <= j <= |s| && Blank(s[..i]) && Blank(s[j..])
  }

  lemma PaddingIsTrimmed(s: string, i: nat, j: nat)
    requires Padded(s, i, j) && Bare(s[i..j])
    ensures TrimSpace(s) == s[i..j]
  {
    var core := s[i..j];
    if core == "" {
      assert s == s[..i] + s[j..] && Blank(s);
      assert s + "" == s;
      LeftIsTrimmed(s, "");
    } else {
      assert s == s[..i] + s[i..] && s[i..] == core + s[j..];
      LeftIsTrimmed(s[..i], s[i..]);
      RightIsTrimmed(core, s[j..]);
    }
  }

  lemma TrimmedIsPadded(s: string) returns (i: nat, j: nat)
    ensures Padded(s, i, j) && s[i..j] == TrimSpace(s) && Bare(TrimSpace(s))
  {
    i := LeftEnd(s);
    var t := s[i..];
    var n := RightEnd(t);
    j := i + n;
    assert s[j..] == t[n..] && s[i..j] == t[..n];
    NothingLeftOnTheLeft(s);
  }

  /** Trimming takes off exactly the white space at both ends. */
  lemma TrimmedExactly(s: string, core: string)
    ensures TrimSpace(s) == core <==> Bare(core) && exists i: nat, j: nat :: Padded(s, i, j) && s[i..j] == core
  {
    var i, j := TrimmedIsPadded(s);
    if i: nat, j: nat :| Bare(core) && Padded(s, i, j) && s[i..j] == core {
      PaddingIsTrimmed(s, i, j);
    }
  }

  // ---------- DNS names are plain ----------

  predicate DnsChar(c: char) {
    LetterOrDigit(c) || c == '-' || c == '.'
  }

  lemma {:induction false} PrefixChars(s: string)
    requires PrefixOk(s)
    ensures (forall k :: 0 <= k < |s| ==> DnsChar(s[k])) && (s != "" ==> LetterOrDigit(s[0]))
  {
    if s == "" {
    } else {
      var front, c := s[..|s| - 1], s[|s| - 1];
      assert s == front + [c];
      OneMore(front, c);
      PrefixChars(front);
    }
  }

  /** A DNS name has only letters, digits, hyphens and dots, and begins and ends with a letter or digit. */
  lemma DnsNamesArePlain(s: string)
    requires IsDnsName(s)
    ensures s != "" && LetterOrDigit(s[0]) && LetterOrDigit(s[|s| - 1])
    ensures forall k :: 0 <= k < |s| ==> DnsChar(s[k])
  {
    PrefixChars(s);
    var l := Last(Labels(s));
    assert ValidLabel(Labels(s)[|Labels(s)| - 1]);
    LastCharacter(s);
    assert LetterOrDigit(l[|l| - 1]);
  }

  // ---------- domain entries ----------

  /** A lower-case name of at least two labels. */
  predicate IsBase(b: string) {
    Folded(b) && IsDnsName(b) && |Labels(b)| >= 2
  }

  function Starred(star: bool, b: string): string {
    if star then "*." + b else b
  }

  function Written(at: bool, star: bool, b: string): string {
    if at then "@" + Starred(star, b) else Starred(star, b)
  }

  /** The entry is this text, up to the case of letters and white space around it. */
  ghost predicate Reads(entry: string, text: string) {
    exists i: nat, j: nat :: Padded(entry, i, j) && AsciiLower(entry[i..j]) == text
  }

  /** The entry names this base, or with a star everything below it; a leading at sign does not matter. */
  ghost predicate IsDomainEntry(entry: string, star: bool, b: string) {
    IsBase(b) && exists at :: Reads(entry, Written(at, star, b))
  }

  lemma LowerKeepsBare(s: string)
    ensures Bare(AsciiLower(s)) <==> Bare(s)
  {
  }

  /** An entry is a text exactly if trimming and folding give that text. */
  lemma ReadingIsTrimming(entry: string, text: string)
    requires Bare(text)
    ensures Reads(entry, text) <==> AsciiLower(TrimSpace(entry)) == text
  {
    if i: nat, j: nat :| Padded(entry, i, j) && AsciiLower(entry[i..j]) == text {
      LowerKeepsBare(entry[i..j]);
      PaddingIsTrimmed(entry, i, j);
    }
    var i, j := TrimmedIsPadded(entry);
  }

  lemma WrittenIsPlain(at: bool, star: bool, b: string)
    requires IsBase(b)
    ensures Folded(Written(at, star, b)) && Bare(Written(at, star, b))
  {
    DnsNamesArePlain(b);
    var text := Written(at, star, b);
    assert text[|text| - 1] == b[|b| - 1];
  }

  /** Taking the at sign and the star off what is written gives the base back. */
  lemma WrittenIsRead(at: bool, star: bool, b: string)
    requires IsBase(b)
    ensures var d := TrimPrefix(Written(at, star, b), "@");
      && d == Written(false, star, b) && ("*." <= d <==> star) && TrimPrefix(d, "*.") == b
  {
    DnsNamesArePlain(b);
    var text := Written(at, star, b);
    assert !("@" <= b) && !("*." <= b) by {
      assert b[0] != '@' && b[0] != '*';
    }
    if at {
      assert text[1..] == Written(false, star, b);
    }
    if star {
      assert Written(false, star, b)[2..] == b;
    }
  }

  lemma BaseIsAccepted(b: string)
    requires IsBase(b)
    ensures b != "" && '*' !in b && !("." <= b) && !ContainsAny(b, "@ \t") && '.' in b
  {
    DnsNamesArePlain(b);
    DotsSeparateLabels(b);
  }

  lemma DomainEntryIsAccepted(entry: string, wild: bool, star: bool, b: string)
    requires IsDomainEntry(entry, star, b) && (star ==> wild)
    ensures NormalizeDomain(entry, wild) == Ok(if star then "." + b else b)
  {
    var at :| Reads(entry, Written(at, star, b));
    WrittenIsPlain(at, star, b);
    ReadingIsTrimming(entry, Written(at, star, b));
    WrittenIsRead(at, star, b);
    BaseIsAccepted(b);
  }

  lemma PrefixComesBack(s: string, prefix: string)
    ensures s == if prefix <= s then prefix + TrimPrefix(s, prefix) else TrimPrefix(s, prefix)
  {
  }

  lemma PrefixesComeBack(low: string)
    ensures var d := TrimPrefix(low, "@");
      low == Written("@" <= low, "*." <= d, TrimPrefix(d, "*."))
  {
    PrefixComesBack(low, "@");
    PrefixComesBack(TrimPrefix(low, "@"), "*.");
  }

  lemma AcceptedIsDomainEntry(entry: string, wild: bool) returns (star: bool, b: string)
    requires NormalizeDomain(entry, wild).Ok?
    ensures IsDomainEntry(entry, star, b) && (star ==> wild)
    ensures NormalizeDomain(entry, wild).value == if star then "." + b else b
  {
    var low := AsciiLower(TrimSpace(entry));
    var d := TrimPrefix(low, "@");
    star, b := "*." <= d, TrimPrefix(d, "*.");
    assert IsBase(b) by {
      FoldedMeansLower(TrimSpace(entry));
      FoldedParts(low, "@");
      FoldedParts(d, "*.");
      DotsSeparateLabels(b);
    }
    PrefixesComeBack(low);
    WrittenIsPlain("@" <= low, star, b);
    ReadingIsTrimming(entry, low);
  }

  /** A domain entry is accepted exactly if it reads, up to case, white space and a leading at sign, like a DNS name
      of at least two labels, or like a star above one where wildcards are allowed; it is stored as the lower-case
      name, a wildcard with a leading dot. */
  lemma DomainEntriesExactly(entry: string, wild: bool, stored: string)
    ensures NormalizeDomain(entry, wild) == Ok(stored) <==>
      exists star, b :: IsDomainEntry(entry, star, b) && (star ==> wild) && stored == if star then "." + b else b
  {
    if NormalizeDomain(entry, wild).Ok? {
      var star, b := AcceptedIsDomainEntry(entry, wild);
    }
    if star, b :| IsDomainEntry(entry, star, b) && (star ==> wild) && stored == if star then "." + b else b {
      DomainEntryIsAccepted(entry, wild, star, b);
    }
  }

  // ---------- address entries ----------

  predicate IsLocal(local: string) {
    && local != "" && Folded(local) && !IsSpace(local[0])
    && forall k :: 0 <= k < |local| ==> local[k] !in "@ \t\r\n"
  }

  /** A local part, an at sign at `i`, and a DNS name of at least two labels, in lower case. */
  predicate SplitsAt(e: string, i: int) {
    0 <= i < |e| && e[i] == '@' && IsLocal(e[..i]) && IsBase(e[i + 1..])
  }

  predicate IsAddress(e: string) {
    exists i :: 0 <= i < |e| && SplitsAt(e, i)
  }

  lemma LastAtIs(e: string, i: nat)
    requires i < |e| && e[i] == '@' && forall k :: i < k < |e| ==> e[k] != '@'
    ensures LastAt(e) == i
  {
  }

  lemma NoAtInDomain(e: string, i: nat)
    requires i < |e| && e[i] == '@' && IsDnsName(e[i + 1..])
    ensures LastAt(e) == i
  {
    DnsNamesArePlain(e[i + 1..]);
    forall k | i < k < |e| ensures e[k] != '@' {
      assert e[k] == e[i + 1..][k - i - 1];
    }
    LastAtIs(e, i);
  }

  lemma AddressIsPlain(e: string, i: nat)
    requires SplitsAt(e, i)
    ensures Folded(e) && Bare(e) && LastAt(e) == i
  {
    var local, d := e[..i], e[i + 1..];
    DnsNamesArePlain(d);
    NoAtInDomain(e, i);
    assert e[|e| - 1] == d[|d| - 1] && e[0] == local[0];
    forall k | 0 <= k < |e| ensures Lower(e[k]) == e[k] {
      assert e[k] == if k < i then local[k] else if k == i then '@' else d[k - i - 1];
    }
  }

  lemma AddressIsAccepted(entry: string, e: string, i: nat)
    requires SplitsAt(e, i) && Reads(entry, e)
    ensures NormalizeEmail(entry) == Ok(e)
  {
    AddressIsPlain(e, i);
    ReadingIsTrimming(entry, e);
    DotsSeparateLabels(e[i + 1..]);
    assert !ContainsAny(e[..i], " \t\r\n") && '@' !in e[..i];
  }

  lemma LocalIsPlain(e: string, i: nat)
    requires 0 < i < |e| && Folded(e) && Bare(e) && '@' !in e[..i] && !ContainsAny(e[..i], " \t\r\n")
    ensures IsLocal(e[..i])
  {
    assert e[..i][0] == e[0];
    forall k | 0 <= k < i ensures e[..i][k] !in "@ \t\r\n" {
      assert e[..i][k] in e[..i];
    }
  }

  lemma ChecksMakeAddress(e: string, i: nat)
    requires 0 < i < |e| && e[i] == '@' && Folded(e) && Bare(e)
    requires '@' !in e[..i] && !ContainsAny(e[..i], " \t\r\n") && IsDnsName(e[i + 1..]) && '.' in e[i + 1..]
    ensures SplitsAt(e, i)
  {
    LocalIsPlain(e, i);
    DotsSeparateLabels(e[i + 1..]);
  }

  lemma AcceptedIsRead(entry: string)
    ensures var e := AsciiLower(TrimSpace(entry)); Folded(e) && Bare(e) && Reads(entry, e)
  {
    var i, j := TrimmedIsPadded(entry);
    FoldedMeansLower(TrimSpace(entry));
    LowerKeepsBare(TrimSpace(entry));
    ReadingIsTrimming(entry, AsciiLower(TrimSpace(entry)));
  }

  lemma AcceptedIsAddress(entry: string, e: string)
    requires NormalizeEmail(entry) == Ok(e)
    ensures IsAddress(e) && Reads(entry, e)
  {
    AcceptedIsRead(entry);
    ChecksMakeAddress(e, LastAt(e));
  }

  /** An address entry is accepted exactly if it is, up to case and white space around it, an address; and it is
      stored as that address in lower case. */
  lemma EmailEntriesExactly(entry: string, stored: string)
    ensures NormalizeEmail(entry) == Ok(stored) <==> IsAddress(stored) && Reads(entry, stored)
  {
    if NormalizeEmail(entry) == Ok(stored) {
      AcceptedIsAddress(entry, stored);
    }
    if IsAddress(stored) && Reads(entry, stored) {
      var i :| 0 <= i < |stored| && SplitsAt(stored, i);
      AddressIsAccepted(entry, stored, i);
    }
  }

  // ---------- whole policies ----------

  /** Some entry names this host. */
  ghost predicate HostListed(entries: seq<string>, host: string) {
    exists k :: 0 <= k < |entries| && IsDomainEntry(entries[k], false, host)
  }

  /** The domain is the one this entry names, or for a star strictly below it. */
  ghost predicate LetsIn(entry: string, star: bool, b: string, domain: string) {
    IsDomainEntry(entry, star, b) && if star then ProperSubdomain(domain, b) else domain == b
  }

  ghost predicate DomainListed(entries: seq<string>, domain: string) {
    exists k, star, b :: 0 <= k < |entries| && LetsIn(entries[k], star, b, domain)
  }

  /** Some entry is this address. */
  ghost predicate AddressListed(entries: seq<string>, email: string) {
    exists k :: 0 <= k < |entries| && IsAddress(email) && Reads(entries[k], email)
  }

  /** After some at sign in the address comes this DNS name. */
  ghost predicate InDomain(email: string, d: string) {
    exists i :: 0 <= i < |email| && email[i] == '@' && email[i + 1..] == d && IsDnsName(d)
  }

  lemma FoldedTail(s: string, i: nat)
    requires Folded(s) && i <= |s|
    ensures AsciiLower(s[i..]) == s[i..]
  {
    assert Folded(s[i..]);
    FoldedMeansLower(s[i..]);
  }

  lemma DomainAfterAt(email: string, i: nat)
    requires Folded(email) && i < |email| && email[i] == '@' && IsDnsName(email[i + 1..])
    ensures EmailDomain(email) == email[i + 1..]
  {
    NoAtInDomain(email, i);
    FoldedTail(email, i + 1);
  }

  lemma DomainIsAfterAt(email: string)
    requires Folded(email) && EmailDomain(email) != ""
    ensures InDomain(email, EmailDomain(email))
  {
    var i := LastAt(email);
    FoldedTail(email, i + 1);
    assert email[i] == '@' && email[i + 1..] == EmailDomain(email);
  }

  lemma EmailDomainIs(email: string, d: string)
    requires Folded(email) && d != ""
    ensures EmailDomain(email) == d <==> InDomain(email, d)
  {
    if EmailDomain(email) == d {
      DomainIsAfterAt(email);
    }
    if i :| 0 <= i < |email| && email[i] == '@' && email[i + 1..] == d && IsDnsName(d) {
      DomainAfterAt(email, i);
    }
  }

  lemma HostsAreListed(entries: seq<string>, host: string)
    ensures host in DomainsOf(entries, false) <==> HostListed(entries, host)
  {
    forall k | 0 <= k < |entries|
      ensures NormalizeDomain(entries[k], false) == Ok(host) <==> IsDomainEntry(entries[k], false, host)
    {
      DomainEntriesExactly(entries[k], false, host);
    }
    if host in DomainsOf(entries, false) {
      var k :| 0 <= k < |entries| && NormalizeDomain(entries[k], false) == Ok(host);
    }
  }

  lemma AddressesAreListed(entries: seq<string>, email: string)
    ensures email in EmailsOf(entries) <==> AddressListed(entries, email)
  {
    forall k | 0 <= k < |entries|
      ensures NormalizeEmail(entries[k]) == Ok(email) <==> IsAddress(email) && Reads(entries[k], email)
    {
      EmailEntriesExactly(entries[k], email);
    }
    if email in EmailsOf(entries) {
      var k :| 0 <= k < |entries| && NormalizeEmail(entries[k]) == Ok(email);
    }
  }

  lemma StoredCovers(star: bool, b: string, domain: string)
    requires IsBase(b)
    ensures Covers(if star then "." + b else b, domain) <==> if star then ProperSubdomain(domain, b) else domain == b
  {
    DnsNamesArePlain(b);
    assert ("." + b)[1..] == b;
    assert b[0] != '.';
  }

  lemma DomainsAreListed(entries: seq<string>, domain: string)
    ensures AnyCovers(DomainsOf(entries, true), domain) <==> DomainListed(entries, domain)
  {
    if stored :| stored in DomainsOf(entries, true) && Covers(stored, domain) {
      var k :| 0 <= k < |entries| && NormalizeDomain(entries[k], true) == Ok(stored);
      var star, b := AcceptedIsDomainEntry(entries[k], true);
      StoredCovers(star, b, domain);
      assert LetsIn(entries[k], star, b, domain);
    }
    if k, star, b :| 0 <= k < |entries| && LetsIn(entries[k], star, b, domain) {
      DomainEntryIsAccepted(entries[k], true, star, b);
      StoredCovers(star, b, domain);
      assert NormalizeDomain(entries[k], true).value in DomainsOf(entries, true);
    }
  }

  ghost predicate IsName(entry: string, wild: bool) {
    exists star, b :: IsDomainEntry(entry, star, b) && (star ==> wild)
  }

  ghost predicate IsAddressEntry(entry: string) {
    exists e :: IsAddress(e) && Reads(entry, e)
  }

  lemma NameIsAccepted(entry: string, wild: bool)
    ensures NormalizeDomain(entry, wild).Ok? <==> IsName(entry, wild)
  {
    if NormalizeDomain(entry, wild).Ok? {
      var star, b := AcceptedIsDomainEntry(entry, wild);
    }
    if star, b :| IsDomainEntry(entry, star, b) && (star ==> wild) {
      DomainEntryIsAccepted(entry, wild, star, b);
    }
  }

  lemma EmailIsAccepted(entry: string)
    ensures NormalizeEmail(entry).Ok? <==> IsAddressEntry(entry)
  {
    if NormalizeEmail(entry).Ok? {
      EmailEntriesExactly(entry, NormalizeEmail(entry).value);
    }
    if e :| IsAddress(e) && Reads(entry, e) {
      EmailEntriesExactly(entry, e);
    }
  }

  ghost predicate AllNames(entries: seq<string>, wild: bool) {
    forall k :: 0 <= k < |entries| ==> IsName(entries[k], wild)
  }

  ghost predicate AllAddresses(entries: seq<string>) {
    forall k :: 0 <= k < |entries| ==> IsAddressEntry(entries[k])
  }

  lemma NamesAreAccepted(entries: seq<string>, wild: bool)
    ensures DomainsOk(entries, wild) <==> AllNames(entries, wild)
  {
    forall k | 0 <= k < |entries| ensures NormalizeDomain(entries[k], wild).Ok? <==> IsName(entries[k], wild) {
      NameIsAccepted(entries[k], wild);
    }
  }

  lemma AddressesAreAccepted(entries: seq<string>)
    ensures EmailsOk(entries) <==> AllAddresses(entries)
  {
    forall k | 0 <= k < |entries| ensures NormalizeEmail(entries[k]).Ok? <==> IsAddressEntry(entries[k]) {
      EmailIsAccepted(entries[k]);
    }
  }

  /** A policy can be built exactly if every entry is a name or an address as it should be, none of the hosted
      domains has a star, and something is allowed. */
  lemma BuildableExactly(allow: Rules, deny: seq<string>)
    ensures Buildable(allow, deny) <==>
      && AllNames(allow.hostedDomains, false) && AllNames(allow.emailDomains, true)
      && AllAddresses(allow.emails) && AllAddresses(deny)
      && |allow.hostedDomains| + |allow.emailDomains| + |allow.emails| > 0
  {
    NamesAreAccepted(allow.hostedDomains, false);
    NamesAreAccepted(allow.emailDomains, true);
    AddressesAreAccepted(allow.emails);
    AddressesAreAccepted(deny);
  }

  /** The account's address, in lower case, is listed, or lies in a listed domain. */
  ghost predicate EmailListed(allow: Rules, email: string) {
    AddressListed(allow.emails, email) || exists d :: InDomain(email, d) && DomainListed(allow.emailDomains, d)
  }

  lemma MatchingMeansListed(p: Policy, allow: Rules, deny: seq<string>, email: string)
    requires BuiltFrom(p, allow, deny) && Folded(email)
    ensures MatchesEmail(p, email) <==> EmailListed(allow, email)
  {
    var domain := EmailDomain(email);
    AddressesAreListed(allow.emails, email);
    SomeEntryCovers(p.emailDomains, domain);
    DomainsAreListed(allow.emailDomains, domain);
    if domain != "" {
      EmailDomainIs(email, domain);
    }
    forall d | InDomain(email, d) ensures d == domain {
      DnsNamesArePlain(d);
      EmailDomainIs(email, d);
    }
  }

  /** What a policy built from these entries decides, in terms of the entries as written: an address on the deny list is
      refused; otherwise the account is let in by its hosted domain,
          or by its verified address if that is listed or lies
      in a listed domain, a star listing exactly what is strictly below its name. */
  lemma EvaluatesExactly(p: Policy, allow: Rules, deny: seq<string>, s: Subject)
    requires BuiltFrom(p, allow, deny)
    ensures var email := AsciiLower(s.email);
      Evaluate(p, s) ==
        if AddressListed(deny, email) then DenyListed
        else if HostListed(allow.hostedDomains, AsciiLower(s.hostedDomain)) then Allowed
        else if !EmailListed(allow, email) then NotAllowed
        else if s.emailVerified then Allowed else EmailUnverified
  {
    var host := AsciiLower(s.hostedDomain);
    FoldedMeansLower(s.email);
    AddressesAreListed(deny, AsciiLower(s.email));
    HostsAreListed(allow.hostedDomains, host);
    MatchingMeansListed(p, allow, deny, AsciiLower(s.email));
    if HostListed(allow.hostedDomains, host) {
      DnsNamesArePlain(host);
    }
  }
}
