/** Who operates the product: four fields, trimmed, bounded, put in lower case and matched against patterns. */
module ProductIdentity {
  import opened Common
  import opened LetterCase

  datatype Identity = Identity(operatorName: string, serviceRegion: string, supportEmail: string, primaryDomain: string)

  const MAX_EMAIL := 254
  const MAX_DOMAIN := 160

  predicate Within(s: string, minimum: nat, maximum: nat) {
    minimum <= |s| <= maximum
  }

  // ----- Patterns -----

  predicate HasSpace(s: string) {
    exists i :: 0 <= i < |s| && IsSpace(s[i])
  }

  /** Something before the at sign at `i`, and something on both sides of a dot after it. */
  predicate IsAddressAt(s: string, i: nat) {
    && 0 < i < |s| && s[i] == '@' && '@' !in s[..i] && '@' !in s[i + 1..]
    && exists j :: i + 1 < j < |s| - 1 && s[j] == '.'
  }

  /** The pattern of an e-mail address. */
  predicate IsEmail(s: string) {
    !HasSpace(s) && exists i :: 0 < i < |s| && IsAddressAt(s, i)
  }

  predicate IsLowerOrDigit(c: char) {
    IsLower(c) || IsDigit(c)
  }

  /** Letters, digits and hyphens, at most 63 of them, with no hyphen at either end. */
  predicate IsLabel(s: string) {
    && Within(s, 1, 63) && IsLowerOrDigit(s[0]) && IsLowerOrDigit(s[|s| - 1])
    && forall i :: 0 <= i < |s| ==> IsLowerOrDigit(s[i]) || s[i] == '-'
  }

  predicate IsTopLevel(s: string) {
    Within(s, 2, 63) && forall i :: 0 <= i < |s| ==> IsLower(s[i])
  }

  function FirstDot(s: string): (i: nat)
    ensures i <= |s| && '.' !in s[..i] && (i < |s| ==> s[i] == '.')
  {
    if s == "" || s[0] == '.' then 0
    else
      assert s == [s[0]] + s[1..];
      1 + FirstDot(s[1..])
  }

  /** One label or more, each followed by a dot, and a top-level name. */
  predicate IsDotted(s: string)
    decreases |s|
  {
    var i := FirstDot(s);
    i < |s| && IsLabel(s[..i]) && (IsTopLevel(s[i + 1..]) || IsDotted(s[i + 1..]))
  }

  predicate IsDomain(s: string) {
    Within(s, 3, 253) && IsDotted(s)
  }

  // ----- Normalising -----

  function Normalize(t: Casing, x: Identity): Option<Identity> {
    var name, region := Trim(x.operatorName), Trim(x.serviceRegion);
    var email, domain := Trim(x.supportEmail), Trim(x.primaryDomain);
    if !Within(name, 2, 160) || !Within(region, 2, 300) then None
    else if !Within(email, 5, MAX_EMAIL) || !IsEmail(Lower(t, email)) then None
    else if !Within(domain, 3, MAX_DOMAIN) || !IsDomain(Lower(t, domain)) then None
    else Some(Identity(name, region, Lower(t, email), Lower(t, domain)))
  }

  /** What normalising leaves, the length of the address apart. */
  predicate IsNormal(t: Casing, x: Identity) {
    && Trimmed(x.operatorName) && Within(x.operatorName, 2, 160)
    && Trimmed(x.serviceRegion) && Within(x.serviceRegion, 2, 300)
    && IsEmail(x.supportEmail) && Lower(t, x.supportEmail) == x.supportEmail
    && IsDomain(x.primaryDomain) && |x.primaryDomain| <= MAX_DOMAIN && Lower(t, x.primaryDomain) == x.primaryDomain
  }

  predicate IsDomainChar(c: char) {
    IsLowerOrDigit(c) || c == '-' || c == '.'
  }

  lemma {:induction false} DomainChars(s: string)
    requires IsDotted(s)
    ensures forall i :: 0 <= i < |s| ==> IsDomainChar(s[i])
    decreases |s|
  {
    var i := FirstDot(s);
    var rest := s[i + 1..];
    if !IsTopLevel(rest) {
      DomainChars(rest);
    }
    forall k | 0 <= k < |s| ensures IsDomainChar(s[k]) {
      if k < i {
        assert s[..i][k] == s[k];
      } else if k > i {
        assert rest[k - i - 1] == s[k];
      }
    }
  }

  /** A domain that is accepted has not become longer. */
  lemma DomainKeepsLength(t: Casing, s: string)
    requires IsDomain(Lower(t, s))
    ensures |Lower(t, s)| == |s|
  {
    DomainChars(Lower(t, s));
    LowerLength(t, s, 0);
    assert s[0..] == s;
    assert COMBINING_DOT !in Lower(t, s);
  }

  lemma NormalizedIsNormal(t: Casing, x: Identity)
    requires Normalize(t, x).Some?
    ensures IsNormal(t, Normalize(t, x).value)
    ensures |Normalize(t, x).value.supportEmail| == |Trim(x.supportEmail)| + Dotted(Trim(x.supportEmail))
  {
    TrimTrims(x.operatorName);
    TrimTrims(x.serviceRegion);
    LowerTwice(t, Trim(x.supportEmail));
    LowerTwice(t, Trim(x.primaryDomain));
    DomainKeepsLength(t, Trim(x.primaryDomain));
  }

  lemma NoSpaceTrimmed(s: string)
    requires !HasSpace(s)
    ensures Trim(s) == s
  {
    NothingToTrim(s);
  }

  /** A normal identity normalises to itself, unless its address has outgrown the bound: then not at all. */
  lemma NormalizeAgain(t: Casing, x: Identity)
    requires IsNormal(t, x)
    ensures Normalize(t, x) == if |x.supportEmail| <= MAX_EMAIL then Some(x) else None
  {
    NothingToTrim(x.operatorName);
    NothingToTrim(x.serviceRegion);
    NoSpaceTrimmed(x.supportEmail);
    DomainChars(x.primaryDomain);
    NoSpaceTrimmed(x.primaryDomain);
    var i :| 0 < i < |x.supportEmail| && IsAddressAt(x.supportEmail, i);
  }

  /** The text is `core` with nothing but white space around it. */
  predicate Wraps(text: string, core: string) {
    && Trimmed(core)
    && exists i, j :: 0 <= i <= j <= |text| && text[i..j] == core && IsBlank(text[..i]) && IsBlank(text[j..])
  }

  lemma WrapsIff(text: string, core: string)
    ensures Wraps(text, core) <==> Trim(text) == core
  {
    hide Trim, Trimmed, IsSpace, IsBlank, Wraps;
    if Wraps(text, core) {
      WrappedIsTrimmed(text, core);
    }
    if Trim(text) == core {
      TrimmedIsWrapped(text);
    }
  }

  lemma WrappedIsTrimmed(text: string, core: string)
    requires Wraps(text, core)
    ensures Trim(text) == core
  {
    hide Trim, Trimmed, IsSpace, IsBlank;
    var i, j :| 0 <= i <= j <= |text| && text[i..j] == core && IsBlank(text[..i]) && IsBlank(text[j..]);
    assert text[..i] + core + text[j..] == text;
    TrimCuts(text[..i], core, text[j..]);
  }

  lemma TrimmedIsWrapped(text: string)
    ensures Wraps(text, Trim(text))
  {
    hide Trim, Trimmed, IsSpace, IsBlank;
    TrimTrims(text);
    var before, after := TrimSplits(text);
    var i, j := |before|, |before| + |Trim(text)|;
    assert text[..i] == before && text[i..j] == Trim(text) && text[j..] == after;
  }

  /**
   * An identity is accepted exactly if its four texts, freed of the white space around them, have the bounds and
   * patterns; name and region are kept as they are written, and address and domain in lower case.
   */
  lemma NormalizedIff(t: Casing, x: Identity, name: string, region: string, email: string, domain: string)
    requires Wraps(x.operatorName, name) && Wraps(x.serviceRegion, region)
    requires Wraps(x.supportEmail, email) && Wraps(x.primaryDomain, domain)
    ensures Normalize(t, x).Some? <==>
      && 2 <= |name| <= 160 && 2 <= |region| <= 300
      && 5 <= |email| <= 254 && IsEmail(Lower(t, email)) && 3 <= |domain| <= 160 && IsDomain(Lower(t, domain))
    ensures Normalize(t, x).Some? ==>
      Normalize(t, x).value == Identity(name, region, Lower(t, email), Lower(t, domain))
  {
    WrapsIff(x.operatorName, name);
    WrapsIff(x.serviceRegion, region);
    WrapsIff(x.supportEmail, email);
    WrapsIff(x.primaryDomain, domain);
    hide Wraps, Trim, IsEmail, IsDomain;
  }

  // ----- An address has a name, a host and, in the host, a dot -----

  predicate IsPlain(s: string) {
    s != "" && '@' !in s && forall c :: c in s ==> !IsSpace(c)
  }

  lemma JoinedIsEmail(name: string, host: string, top: string)
    requires IsPlain(name) && IsPlain(host) && IsPlain(top)
    ensures IsEmail(name + "@" + host + "." + top)
  {
    var s := name + "@" + host + "." + top;
    var i, j := |name|, |name| + 1 + |host|;
    assert s[i] == '@' && s[j] == '.';
    assert s[..i] == name && s[i + 1..] == host + "." + top;
    assert IsAddressAt(s, i);
  }

  lemma EmailIsJoined(s: string) returns (name: string, host: string, top: string)
    requires IsEmail(s)
    ensures IsPlain(name) && IsPlain(host) && IsPlain(top) && s == name + "@" + host + "." + top
  {
    var i :| 0 < i < |s| && IsAddressAt(s, i);
    var j :| i + 1 < j < |s| - 1 && s[j] == '.';
    name, host, top := s[..i], s[i + 1..j], s[j + 1..];
    assert host <= s[i + 1..] && forall c :: c in top ==> c in s[i + 1..];
  }

  // ----- Domains are labels and a top-level name -----

  function Joined(labels: seq<string>, top: string): string {
    if labels == [] then top else labels[0] + "." + Joined(labels[1..], top)
  }

  /** Letters, digits and hyphens, with no hyphen at either end. */
  predicate IsPart(s: string) {
    1 <= |s| <= 63 && s[0] != '-' && s[|s| - 1] != '-' && forall c :: c in s ==> IsLowerOrDigit(c) || c == '-'
  }

  predicate AreLabels(labels: seq<string>) {
    labels != [] && forall i :: 0 <= i < |labels| ==> IsPart(labels[i])
  }

  lemma LabelIff(s: string)
    ensures IsLabel(s) <==> IsPart(s)
  {
    if 1 <= |s| <= 63 {
      assert s[0] in s && s[|s| - 1] in s;
    }
  }

  lemma {:induction false} FirstDotIs(first: string, rest: string)
    requires '.' !in first
    ensures FirstDot(first + "." + rest) == |first|
  {
    if first != "" {
      assert (first + "." + rest)[1..] == first[1..] + "." + rest;
      FirstDotIs(first[1..], rest);
    }
  }

  lemma {:induction false} JoinedIsDotted(labels: seq<string>, top: string)
    requires AreLabels(labels) && IsTopLevel(top)
    ensures IsDotted(Joined(labels, top))
  {
    var first, rest := labels[0], Joined(labels[1..], top);
    var s := first + "." + rest;
    LabelIff(first);
    FirstDotIs(first, rest);
    var i := FirstDot(s);
    assert s[..i] == first && s[i + 1..] == rest;
    if |labels| > 1 {
      JoinedIsDotted(labels[1..], top);
    }
  }

  lemma {:induction false} DottedIsJoined(s: string) returns (labels: seq<string>, top: string)
    requires IsDotted(s)
    ensures AreLabels(labels) && IsTopLevel(top) && s == Joined(labels, top)
    decreases |s|
  {
    var i := FirstDot(s);
    var first, rest := s[..i], s[i + 1..];
    assert s == first + "." + rest;
    LabelIff(first);
    if IsTopLevel(rest) {
      labels, top := [first], rest;
      assert Joined([], top) == top;
    } else {
      var more;
      more, top := DottedIsJoined(rest);
      labels := [first] + more;
      assert labels[1..] == more;
    }
  }

  // ----- An address that outgrows the bound -----

  function Repeated(c: char, n: nat): (s: string)
    ensures |s| == n && forall i :: 0 <= i < n ==> s[i] == c
  {
    seq(n, i => c)
  }

  /** 254 characters, the first of which is a dotted capital I. */
  function LongEmail(): (s: string)
    ensures |s| == MAX_EMAIL && s[0] == DOTTED_I && forall i :: 0 < i < |s| ==> s[i] in {'a', '@', 'b', '.', 'c'}
  {
    [DOTTED_I] + Repeated('a', 249) + "@b.c"
  }

  lemma LongEmailLowers(t: Casing)
    ensures Lower(t, LongEmail()) == ['i', COMBINING_DOT] + LongEmail()[1..]
  {
    var s := LongEmail();
    LowStays(t, s, 1);
    assert LowerFrom(t, s, 0) == LowerAt(t, s, 0) + LowerFrom(t, s, 1);
  }

  lemma LongEmailIsEmail()
    ensures IsEmail(['i', COMBINING_DOT] + LongEmail()[1..])
  {
    var low := ['i', COMBINING_DOT] + LongEmail()[1..];
    assert low == (['i', COMBINING_DOT] + Repeated('a', 249)) + "@b.c";
    assert IsAddressAt(low, 251) by {
      assert low[251] == '@' && low[253] == '.';
    }
  }

  lemma ShortDomain(t: Casing)
    ensures Lower(t, "a.co") == "a.co" && IsDomain("a.co") && Trim("a.co") == "a.co"
  {
    var s := "a.co";
    LowStays(t, s, 0);
    NothingToTrim(s);
    assert FirstDot(s) == 1;
    assert s[..1] == "a" && s[2..] == "co";
  }

  /** The address is within the bound when it is checked, and beyond it when it is stored. */
  lemma LongIdentityFits(t: Casing, name: string, region: string)
    requires Trimmed(name) && Within(name, 2, 160) && Trimmed(region) && Within(region, 2, 300)
    ensures Normalize(t, Identity(name, region, LongEmail(), "a.co")).Some?
    ensures |Lower(t, Trim(LongEmail()))| > MAX_EMAIL
  {
    NothingToTrim(name);
    NothingToTrim(region);
    NothingToTrim(LongEmail());
    LongEmailLowers(t);
    LongEmailIsEmail();
    ShortDomain(t);
    hide IsEmail, IsDomain;
  }
}
