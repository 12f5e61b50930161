/** Whom a feature flag reaches, read off the raw payload, and what raising its percentage does. */
module FeatureFlagLaws {
  import opened Common
  import opened Texts
  import opened FeatureFlag

  // ----- The payload as it was written -----

  /** Some text of the list is this one, up to surrounding white space. */
  predicate Lists(value: Value, s: string) {
    value.List? && exists i :: 0 <= i < |value.items| && value.items[i].Text? && Trim(value.items[i].text) == s
  }

  /** A bound that is missing admits everything; one that is there is a time on the right side of now. */
  predicate After(env: Env, fields: map<Name, Value>, now: Option<int>) {
    StartsAtName in fields ==>
      && fields[StartsAtName].Text? && now.Some?
      && env.parse(Trim(fields[StartsAtName].text)).Some?
        && env.parse(Trim(fields[StartsAtName].text)).value <= now.value
  }

  predicate Before(env: Env, fields: map<Name, Value>, now: Option<int>) {
    EndsAtName in fields ==>
      && fields[EndsAtName].Text? && now.Some?
      && env.parse(Trim(fields[EndsAtName].text)).Some? && now.value < env.parse(Trim(fields[EndsAtName].text)).value
  }

  /** Named by user or by one of their organizations, where either is listed at all. */
  predicate Names(fields: map<Name, Value>, c: Context) {
    UserIdsName in fields || OrganizationIdsName in fields ==>
      || (c.userId.Some? && UserIdsName in fields && Lists(fields[UserIdsName], c.userId.value))
      || (OrganizationIdsName in fields && exists i ::
          0 <= i < |c.organizationIds| && Lists(fields[OrganizationIdsName], c.organizationIds[i]))
  }

  predicate RunsVersion(fields: map<Name, Value>, c: Context) {
    ApplicationVersionsName in fields ==>
      c.applicationVersion.Some? && Lists(fields[ApplicationVersionsName], c.applicationVersion.value)
  }

  /** The first so many hundredths of the users, in the order of their hashes. */
  predicate Among(env: Env, percentage: int, userId: Option<string>) {
    && userId.Some? && userId.value != ""
    && env.hash("client.strategy_research:" + userId.value) % 10000 < percentage * 100
  }

  predicate Admits(env: Env, fields: map<Name, Value>, c: Context) {
    Names(fields, c) && RunsVersion(fields, c) && After(env, fields, c.now) && Before(env, fields, c.now)
  }

  predicate Reaches(env: Env, fields: map<Name, Value>, c: Context) {
    && Admits(env, fields, c)
    && (RolloutPercentageName in fields ==>
          fields[RolloutPercentageName].Int? && Among(env, fields[RolloutPercentageName].n, c.userId))
  }

  // ----- Reading the normal form -----

  lemma ListedIsMember(value: Value, maximum: nat, valid: string -> bool, s: string)
    requires NormalizedList(value, maximum, valid).Some? && !valid("")
    ensures s in NormalizedList(value, maximum, valid).value <==> Lists(value, s)
  {
    NormalizedListIsNormal(value, maximum, valid);
    var texts := TrimmedTexts(value.items);
    if Lists(value, s) {
      var i :| 0 <= i < |value.items| && value.items[i].Text? && Trim(value.items[i].text) == s;
      assert texts[i] == s;
    }
    if s in texts {
      var i :| 0 <= i < |texts| && texts[i] == s;
      assert valid(texts[i]);
    }
  }

  /** What the parameters must satisfy: times read back as written, and the empty text is no version. */
  ghost predicate Sane(env: Env) {
    Faithful(env) && !env.semver("")
  }

  lemma NamesAgree(env: Env, value: Value, c: Context)
    requires NormalizeTarget(env, value).Some?
    ensures Selected(NormalizeTarget(env, value).value, c) <==> Names(value.fields, c)
  {
    var t, f := NormalizeTarget(env, value).value, value.fields;
    if UserIdsName in f && c.userId.Some? {
      ListedIsMember(f[UserIdsName], 100, IsIdentifier, c.userId.value);
      NormalizedListIsNormal(f[UserIdsName], 100, IsIdentifier);
    }
    if OrganizationIdsName in f {
      forall i | 0 <= i < |c.organizationIds|
        ensures c.organizationIds[i] in t.organizationIds.value <==>
          Lists(f[OrganizationIdsName], c.organizationIds[i])
      {
        ListedIsMember(f[OrganizationIdsName], 100, IsIdentifier, c.organizationIds[i]);
      }
    }
  }

  lemma VersionsAgree(env: Env, value: Value, c: Context)
    requires !env.semver("") && NormalizeTarget(env, value).Some?
    ensures VersionMatches(NormalizeTarget(env, value).value, c) <==> RunsVersion(value.fields, c)
  {
    var f := value.fields;
    if ApplicationVersionsName in f && c.applicationVersion.Some? {
      ListedIsMember(f[ApplicationVersionsName], 20, env.semver, c.applicationVersion.value);
      NormalizedListIsNormal(f[ApplicationVersionsName], 20, env.semver);
    }
  }

  lemma WindowsAgree(env: Env, value: Value, c: Context)
    requires Faithful(env) && NormalizeTarget(env, value).Some?
    ensures InWindow(env, NormalizeTarget(env, value).value, c) <==>
      After(env, value.fields, c.now) && Before(env, value.fields, c.now)
  {
  }

  lemma RolloutsAgree(env: Env, value: Value, c: Context)
    requires NormalizeTarget(env, value).Some?
    ensures var f := value.fields;
      RolledOut(env, NormalizeTarget(env, value).value, c) <==>
        (RolloutPercentageName in f ==>
           f[RolloutPercentageName].Int? && Among(env, f[RolloutPercentageName].n, c.userId))
  {
    assert FLAG_KEY + ":" == "client.strategy_research:";
  }

  /** The normal form reaches exactly those whom the raw payload reaches. */
  lemma MatchesIsReaches(env: Env, value: Value, c: Context)
    requires Sane(env) && NormalizeTarget(env, value).Some?
    ensures Matches(env, NormalizeTarget(env, value).value, c) <==> Reaches(env, value.fields, c)
  {
    hide NormalizeTarget;
    NamesAgree(env, value, c);
    VersionsAgree(env, value, c);
    WindowsAgree(env, value, c);
    RolloutsAgree(env, value, c);
  }

  // ----- Which payloads are accepted -----

  /** A payload of the second schema that the checks accept. */
  predicate ValidV2(env: Env, payload: Value) {
    NormalizeV2(env, payload).Some?
  }

  /** A list of one to so many texts, each of which is valid once trimmed. */
  predicate IsListOf(value: Value, maximum: nat, valid: string -> bool) {
    && value.List? && 1 <= |value.items| <= maximum
    && forall i :: 0 <= i < |value.items| ==> value.items[i].Text? && valid(Trim(value.items[i].text))
  }

  predicate IsTime(env: Env, value: Value) {
    value.Text? && HasOffset(Trim(value.text)) && env.parse(Trim(value.text)).Some?
  }

  function TimeOf(env: Env, value: Value): int
    requires IsTime(env, value)
  {
    env.parse(Trim(value.text)).value
  }

  /** Known fields only, an outcome, at least one selector, and each selector well formed. */
  predicate IsAcceptableTarget(env: Env, f: map<Name, Value>) {
    && (forall key :: key in f ==> !key.OtherName? && key != DefaultEnabledName && key != TargetName)
    && EnabledName in f && f[EnabledName].Bool? && (exists key :: key in f && key != EnabledName)
    && (UserIdsName in f ==> IsListOf(f[UserIdsName], 100, IsIdentifier))
    && (OrganizationIdsName in f ==> IsListOf(f[OrganizationIdsName], 100, IsIdentifier))
    && (ApplicationVersionsName in f ==> IsListOf(f[ApplicationVersionsName], 20, env.semver))
    && (RolloutPercentageName in f ==> f[RolloutPercentageName].Int? && 0 <= f[RolloutPercentageName].n <= 100)
    && (StartsAtName in f ==> IsTime(env, f[StartsAtName])) && (EndsAtName in f ==> IsTime(env, f[EndsAtName]))
    && (StartsAtName in f && EndsAtName in f ==> TimeOf(env, f[StartsAtName]) < TimeOf(env, f[EndsAtName]))
  }

  lemma ListAcceptedIff(value: Value, maximum: nat, valid: string -> bool)
    requires !valid("")
    ensures NormalizedList(value, maximum, valid).Some? <==> IsListOf(value, maximum, valid)
  {
    if value.List? {
      var texts := TrimmedTexts(value.items);
      forall i | 0 <= i < |texts|
        ensures valid(texts[i]) <==> value.items[i].Text? && valid(Trim(value.items[i].text))
      {
      }
      if NormalizedList(value, maximum, valid).Some? {
        forall i | 0 <= i < |value.items| ensures value.items[i].Text? && valid(Trim(value.items[i].text)) {
          assert valid(texts[i]);
        }
      }
    }
  }

  lemma SelectorIff(f: map<Name, Value>)
    requires f.Keys <= TARGET_KEYS
    ensures HasSelector(f) <==> exists key :: key in f && key != EnabledName
  {
  }

  lemma KnownIff(f: map<Name, Value>)
    ensures f.Keys <= TARGET_KEYS <==>
      forall key :: key in f ==> !key.OtherName? && key != DefaultEnabledName && key != TargetName
  {
    forall key: Name
      ensures key in TARGET_KEYS <==> !key.OtherName? && key != DefaultEnabledName && key != TargetName
    {
    }
  }

  lemma TimesAcceptedIff(env: Env, f: map<Name, Value>)
    requires Faithful(env)
    ensures var startsAt, endsAt := FieldOf(f, StartsAtName, AsTimestamp(env)),
      FieldOf(f, EndsAtName, AsTimestamp(env));
      && (!startsAt.Broken? <==> (StartsAtName in f ==> IsTime(env, f[StartsAtName])))
      && (!endsAt.Broken? <==> (EndsAtName in f ==> IsTime(env, f[EndsAtName])))
      && (!startsAt.Broken? && !endsAt.Broken? ==>
           (WindowOrdered(env, Taken(startsAt), Taken(endsAt)) <==>
              (StartsAtName in f && EndsAtName in f ==> TimeOf(env, f[StartsAtName]) < TimeOf(env, f[EndsAtName]))))
  {
  }

  lemma TargetAcceptedIff(env: Env, value: Value)
    requires Sane(env)
    ensures NormalizeTarget(env, value).Some? <==> value.Object? && IsAcceptableTarget(env, value.fields)
  {
    hide NormalizedList, IsListOf, IsTime, WindowOrdered, NormalizedTimestamp, HasSelector, TARGET_KEYS;
    if value.Object? {
      var f := value.fields;
      KnownIff(f);
      if f.Keys <= TARGET_KEYS {
        SelectorIff(f);
      }
      if UserIdsName in f {
        ListAcceptedIff(f[UserIdsName], 100, IsIdentifier);
      }
      if OrganizationIdsName in f {
        ListAcceptedIff(f[OrganizationIdsName], 100, IsIdentifier);
      }
      if ApplicationVersionsName in f {
        ListAcceptedIff(f[ApplicationVersionsName], 20, env.semver);
      }
      TimesAcceptedIff(env, f);
    }
  }

  /** The second schema accepts exactly an outcome by default and an acceptable target. */
  lemma ValidIff(env: Env, payload: Value)
    requires Sane(env)
    ensures ValidV2(env, payload) <==>
      && payload.Object? && payload.fields.Keys == {DefaultEnabledName, TargetName}
      && payload.fields[DefaultEnabledName].Bool? && payload.fields[TargetName].Object?
      && IsAcceptableTarget(env, payload.fields[TargetName].fields)
  {
    hide NormalizeTarget, IsAcceptableTarget;
    if payload.Object? && TargetName in payload.fields {
      TargetAcceptedIff(env, payload.fields[TargetName]);
    }
  }

  // ----- The answer -----

  function Targets(payload: Value): map<Name, Value>
    requires payload.Object? && TargetName in payload.fields && payload.fields[TargetName].Object?
  {
    payload.fields[TargetName].fields
  }

  lemma ValidV2Shape(env: Env, payload: Value)
    requires ValidV2(env, payload)
    ensures payload.Object? && TargetName in payload.fields && payload.fields[TargetName].Object?
    ensures DefaultEnabledName in payload.fields && payload.fields[DefaultEnabledName].Bool?
    ensures EnabledName in Targets(payload) && Targets(payload)[EnabledName].Bool?
    ensures NormalizeTarget(env, payload.fields[TargetName]).Some?
  {
  }

  /** Whoever the target reaches gets its outcome, with the reason that says so, and everybody else the default. */
  lemma TargetedAnswer(env: Env, payload: Value, c: Context)
    requires Sane(env) && ValidV2(env, payload)
    ensures payload.Object? && TargetName in payload.fields && payload.fields[TargetName].Object?
      && DefaultEnabledName in payload.fields && payload.fields[DefaultEnabledName].Bool?
      && EnabledName in Targets(payload) && Targets(payload)[EnabledName].Bool?
    ensures var answer := Evaluate(env, true, 2, payload, c);
      var target, default := Targets(payload)[EnabledName].truth, payload.fields[DefaultEnabledName].truth;
      if Reaches(env, Targets(payload), c)
      then answer.enabled == target && answer.reason == (if target then TargetedEnabled else TargetedDisabled)
      else answer.enabled == default && answer.reason == (if default then DefaultEnabled else DefaultDisabled)
  {
    ValidV2Shape(env, payload);
    MatchesIsReaches(env, payload.fields[TargetName], c);
  }

  /** The answers that do not depend on whom a flag reaches. */
  lemma PlainAnswers(env: Env, schemaVersion: int, payload: Value, enabled: bool, c: Context)
    ensures !Evaluate(env, false, schemaVersion, payload, c).enabled
    ensures Evaluate(env, true, schemaVersion, Null, c).enabled
    ensures payload != Null && (schemaVersion == 1 || schemaVersion == 2 ==>
                                Normalize(env, schemaVersion, payload).None?) ==>
      !Evaluate(env, true, schemaVersion, payload, c).enabled
    ensures Evaluate(env, true, 1, Object(map[EnabledName := Bool(enabled)]), c).enabled == enabled
    ensures Evaluate(env, true, 1, payload, c).enabled ==>
      payload == Null || payload == Object(map[EnabledName := Bool(true)])
  {
    if Evaluate(env, true, 1, payload, c).enabled && payload != Null {
      assert payload.fields == map[EnabledName := Bool(true)];
    }
  }

  // ----- Rolling out, in the answer -----

  /** The payload with this percentage. */
  function AtPercentage(payload: Value, p: int): Value
    requires payload.Object? && TargetName in payload.fields && payload.fields[TargetName].Object?
  {
    Object(payload.fields[TargetName := Object(Targets(payload)[RolloutPercentageName := Int(p)])])
  }

  predicate HasTarget(payload: Value) {
    payload.Object? && TargetName in payload.fields && payload.fields[TargetName].Object?
  }

  lemma PercentageStaysValid(env: Env, payload: Value, p: int)
    requires Sane(env) && ValidV2(env, payload) && 0 <= p <= 100
    ensures HasTarget(payload) && ValidV2(env, AtPercentage(payload, p))
  {
    hide NormalizeV2, IsAcceptableTarget;
    ValidIff(env, payload);
    ValidIff(env, AtPercentage(payload, p));
    PercentageStaysAcceptable(env, Targets(payload), p);
  }

  lemma PercentageStaysAcceptable(env: Env, f: map<Name, Value>, p: int)
    requires IsAcceptableTarget(env, f) && 0 <= p <= 100
    ensures IsAcceptableTarget(env, f[RolloutPercentageName := Int(p)])
  {
    var g := f[RolloutPercentageName := Int(p)];
    assert RolloutPercentageName in g && RolloutPercentageName != EnabledName;
  }

  /** Whom the flag is on for at a percentage, when the target turns it on and the default is off. */
  lemma OnAt(env: Env, payload: Value, p: int, c: Context)
    requires Sane(env) && ValidV2(env, payload) && 0 <= p <= 100
    ensures HasTarget(payload) && DefaultEnabledName in payload.fields && payload.fields[DefaultEnabledName].Bool?
      && EnabledName in Targets(payload) && Targets(payload)[EnabledName].Bool?
    ensures var target, default := Targets(payload)[EnabledName].truth, payload.fields[DefaultEnabledName].truth;
      Evaluate(env, true, 2, AtPercentage(payload, p), c).enabled ==
        if Admits(env, Targets(payload), c) && Among(env, p, c.userId) then target else default
  {
    PercentageStaysValid(env, payload, p);
    var raised := AtPercentage(payload, p);
    ValidV2Shape(env, payload);
    TargetedAnswer(env, raised, c);
    assert Targets(raised) == Targets(payload)[RolloutPercentageName := Int(p)];
    SelectorsUntouched(env, Targets(payload), p, c);
  }

  lemma SelectorsUntouched(env: Env, f: map<Name, Value>, p: int, c: Context)
    ensures Admits(env, f[RolloutPercentageName := Int(p)], c) <==> Admits(env, f, c)
  {
  }

  /**
   * Raising the percentage of a target moves users only from the default to the target's outcome, whichever the two
   * are; at 0 nobody is moved, and at 100 exactly the identified users whom the other selectors admit.
   */
  lemma RolloutMovesUsers(env: Env, payload: Value, p: int, q: int, c: Context)
    requires Sane(env) && ValidV2(env, payload) && 0 <= p <= q <= 100
    ensures HasTarget(payload) && DefaultEnabledName in payload.fields && payload.fields[DefaultEnabledName].Bool?
      && EnabledName in Targets(payload) && Targets(payload)[EnabledName].Bool?
    ensures var target, default := Targets(payload)[EnabledName].truth, payload.fields[DefaultEnabledName].truth;
      && (target && !default && Evaluate(env, true, 2, AtPercentage(payload, p), c).enabled ==>
            Evaluate(env, true, 2, AtPercentage(payload, q), c).enabled)
      && (!target && default && !Evaluate(env, true, 2, AtPercentage(payload, p), c).enabled ==>
            !Evaluate(env, true, 2, AtPercentage(payload, q), c).enabled)
      && Evaluate(env, true, 2, AtPercentage(payload, 0), c).enabled == default
      && Evaluate(env, true, 2, AtPercentage(payload, 100), c).enabled ==
           if Admits(env, Targets(payload), c) && c.userId.Some? && c.userId.value != "" then target else default
  {
    OnAt(env, payload, p, c);
    OnAt(env, payload, q, c);
    OnAt(env, payload, 0, c);
    OnAt(env, payload, 100, c);
  }
}
