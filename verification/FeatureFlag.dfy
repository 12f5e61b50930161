/** The registered feature flag: checking and normalising its payload, and deciding whom it reaches. */
module FeatureFlag {
  import opened Common
  import opened Texts

  // ----- Payloads -----

  /** Field names; the last are those that no schema knows. */
  datatype Name =
    | DefaultEnabledName
    | TargetName
    | EnabledName
    | UserIdsName
    | OrganizationIdsName
    | ApplicationVersionsName
    | RolloutPercentageName
    | StartsAtName
    | EndsAtName
    | OtherName(name: string)

  /** A JSON value as the checks see it; `Fraction` is any number that is not an integer. */
  datatype Value =
    | Null
    | Bool(truth: bool)
    | Int(n: int)
    | Fraction
    | Text(text: string)
    | List(items: seq<Value>)
    | Object(fields: map<Name, Value>)

  datatype Target = Target(
    enabled: bool, userIds: Option<seq<string>>, organizationIds: Option<seq<string>>,
    applicationVersions: Option<seq<string>>, rolloutPercentage: Option<int>, startsAt: Option<string>,
    endsAt: Option<string>)

  datatype Flag = Global(enabled: bool) | Targeted(defaultEnabled: bool, target: Target)

  /** Date parsing and printing, the version pattern, and the first 32 bits of a hash. */
  datatype Env = Env(parse: string -> Option<int>, write: int -> string, semver: string -> bool, hash: string -> nat)

  const TARGET_KEYS: set<Name> :=
    {EnabledName, UserIdsName, OrganizationIdsName, ApplicationVersionsName, RolloutPercentageName, StartsAtName,
      EndsAtName}

  /** `[A-Za-z0-9][A-Za-z0-9._:-]{0,127}` */
  predicate IsIdentifier(s: string) {
    && 1 <= |s| <= 128 && IsAlnum(s[0])
    && forall i :: 0 <= i < |s| ==> IsAlnum(s[i]) || s[i] == '.' || s[i] == '_' || s[i] == ':' || s[i] == '-'
  }

  /** Ends in `Z` or in an offset of hours and minutes. */
  predicate HasOffset(s: string) {
    || (s != "" && (s[|s| - 1] == 'Z' || s[|s| - 1] == 'z'))
    || (|s| >= 6 && IsOffset(s[|s| - 6..]))
  }

  predicate IsOffset(s: string)
    requires |s| == 6
  {
    && (s[0] == '+' || s[0] == '-') && s[3] == ':'
    && (((s[1] == '0' || s[1] == '1') && IsDigit(s[2])) || (s[1] == '2' && '0' <= s[2] <= '3'))
    && '0' <= s[4] <= '5' && IsDigit(s[5])
  }

  // ----- Normalising -----

  function TrimmedTexts(items: seq<Value>): (r: seq<string>)
    ensures |r| == |items|
  {
    seq(|items|, i requires 0 <= i < |items| => if items[i].Text? then Trim(items[i].text) else "")
  }

  /** A list of strings becomes the sorted list of its distinct trimmed members. */
  function NormalizedList(value: Value, maximum: nat, valid: string -> bool): Option<seq<string>> {
    if !value.List? || !(1 <= |value.items| <= maximum) then None
    else
      var texts := TrimmedTexts(value.items);
      if exists i :: 0 <= i < |texts| && !valid(texts[i]) then None else Some(SortedSet(texts))
  }

  function NormalizedTimestamp(env: Env, value: Value): Option<string> {
    var raw := if value.Text? then Trim(value.text) else "";
    if !HasOffset(raw) then None
    else match env.parse(raw)
      case None => None
      case Some(t) => Some(env.write(t))
  }

  /** A field that may be missing: absent, broken, or normalised. */
  datatype Field<T> = Absent | Broken | Given(value: T)

  function FieldOf<T>(fields: map<Name, Value>, key: Name, normalize: Value -> Option<T>): Field<T> {
    if key !in fields then Absent
    else match normalize(fields[key])
      case None => Broken
      case Some(v) => Given(v)
  }

  function Taken<T>(f: Field<T>): Option<T> {
    if f.Given? then Some(f.value) else None
  }

  function AsIdentifiers(): Value -> Option<seq<string>> {
    (v: Value) => NormalizedList(v, 100, IsIdentifier)
  }

  function AsVersions(env: Env): Value -> Option<seq<string>> {
    (v: Value) => NormalizedList(v, 20, env.semver)
  }

  function AsPercentage(): Value -> Option<int> {
    (v: Value) => if v.Int? && 0 <= v.n <= 100 then Some(v.n) else None
  }

  function AsTimestamp(env: Env): Value -> Option<string> {
    (v: Value) => NormalizedTimestamp(env, v)
  }

  predicate HasSelector(fields: map<Name, Value>) {
    exists key :: key in TARGET_KEYS && key != EnabledName && key in fields
  }

  predicate WindowOrdered(env: Env, startsAt: Option<string>, endsAt: Option<string>) {
    startsAt.Some? && endsAt.Some? ==> Instant(env, startsAt.value) < Instant(env, endsAt.value)
  }

  /** `Date.parse` of a normalised time stamp. */
  function Instant(env: Env, s: string): int {
    match env.parse(s)
    case None => 0
    case Some(t) => t
  }

  function NormalizeTarget(env: Env, value: Value): Option<Target> {
    if !value.Object? then None
    else
      var f := value.fields;
      if !(f.Keys <= TARGET_KEYS) || EnabledName !in f || !f[EnabledName].Bool? || !HasSelector(f) then None
      else
        var users := FieldOf(f, UserIdsName, AsIdentifiers());
        var organizations := FieldOf(f, OrganizationIdsName, AsIdentifiers());
        var versions := FieldOf(f, ApplicationVersionsName, AsVersions(env));
        var rollout := FieldOf(f, RolloutPercentageName, AsPercentage());
        var startsAt, endsAt := FieldOf(f, StartsAtName, AsTimestamp(env)), FieldOf(f, EndsAtName, AsTimestamp(env));
        if users.Broken? || organizations.Broken? || versions.Broken? || rollout.Broken? || startsAt.Broken?
          || endsAt.Broken?
        then None
        else if !WindowOrdered(env, Taken(startsAt), Taken(endsAt)) then None
        else Some(Target(f[EnabledName].truth, Taken(users), Taken(organizations), Taken(versions), Taken(rollout),
                         Taken(startsAt), Taken(endsAt)))
  }

  function NormalizeV1(value: Value): Option<Flag> {
    if value.Object? && value.fields.Keys == {EnabledName} && value.fields[EnabledName].Bool?
    then Some(Global(value.fields[EnabledName].truth)) else None
  }

  function NormalizeV2(env: Env, value: Value): Option<Flag> {
    if !value.Object? || !(value.fields.Keys <= {DefaultEnabledName, TargetName}) then None
    else if DefaultEnabledName !in value.fields || !value.fields[DefaultEnabledName].Bool?
      || TargetName !in value.fields then None
    else match NormalizeTarget(env, value.fields[TargetName])
      case None => None
      case Some(target) => Some(Targeted(value.fields[DefaultEnabledName].truth, target))
  }

  function Normalize(env: Env, schemaVersion: int, value: Value): Option<Flag> {
    if schemaVersion == 1 then NormalizeV1(value)
    else if schemaVersion == 2 then NormalizeV2(env, value)
    else None
  }

  // ----- Evaluating -----

  datatype Context = Context(
    userId: Option<string>, organizationIds: seq<string>, applicationVersion: Option<string>, now: Option<int>)

  const FLAG_KEY := "client.strategy_research"

  function Bucket(env: Env, userId: string): (b: nat)
    ensures b < 10000
  {
    env.hash(FLAG_KEY + ":" + userId) % 10000
  }

  /** The user, unless there is none or the empty one. */
  predicate Identified(id: Option<string>) {
    id.Some? && id.value != ""
  }

  predicate Selected(t: Target, c: Context) {
    t.userIds.Some? || t.organizationIds.Some? ==>
      || (Identified(c.userId) && t.userIds.Some? && c.userId.value in t.userIds.value)
      || (t.organizationIds.Some? && exists i ::
          0 <= i < |c.organizationIds| && c.organizationIds[i] in t.organizationIds.value)
  }

  predicate VersionMatches(t: Target, c: Context) {
    t.applicationVersions.Some? ==>
      Identified(c.applicationVersion) && c.applicationVersion.value in t.applicationVersions.value
  }

  predicate RolledOut(env: Env, t: Target, c: Context) {
    t.rolloutPercentage.Some? ==> Identified(c.userId) && Bucket(env, c.userId.value) < t.rolloutPercentage.value * 100
  }

  predicate InWindow(env: Env, t: Target, c: Context) {
    t.startsAt.Some? || t.endsAt.Some? ==>
      && c.now.Some?
      && (t.startsAt.Some? ==> Instant(env, t.startsAt.value) <= c.now.value)
      && (t.endsAt.Some? ==> c.now.value < Instant(env, t.endsAt.value))
  }

  predicate Matches(env: Env, t: Target, c: Context) {
    Selected(t, c) && VersionMatches(t, c) && RolledOut(env, t, c) && InWindow(env, t, c)
  }

  datatype Why =
    | EnvironmentGateDisabled
    | NoActiveConfiguration
    | Enabled
    | ConfigurationDisabled
    | TargetedEnabled
    | TargetedDisabled
    | DefaultEnabled
    | DefaultDisabled
    | ConfigurationInvalid

  datatype Evaluation = Evaluation(enabled: bool, reason: Why)

  function Evaluate(env: Env, environmentEnabled: bool, schemaVersion: int, payload: Value, c: Context): Evaluation {
    if !environmentEnabled then Evaluation(false, EnvironmentGateDisabled)
    else if payload == Null then Evaluation(true, NoActiveConfiguration)
    else match Normalize(env, schemaVersion, payload)
      case None => Evaluation(false, ConfigurationInvalid)
      case Some(Global(enabled)) => Evaluation(enabled, if enabled then Enabled else ConfigurationDisabled)
      case Some(Targeted(defaultEnabled, target)) =>
        if Matches(env, target, c) then
          Evaluation(target.enabled, if target.enabled then TargetedEnabled else TargetedDisabled)
        else Evaluation(defaultEnabled, if defaultEnabled then DefaultEnabled else DefaultDisabled)
  }

  // ----- Normal forms as payloads -----

  function TextList(s: seq<string>): Value {
    List(seq(|s|, i requires 0 <= i < |s| => Text(s[i])))
  }

  function Put(fields: map<Name, Value>, key: Name, value: Option<Value>): map<Name, Value> {
    if value.Some? then fields[key := value.value] else fields
  }

  function Mapped<S, T>(o: Option<S>, f: S -> T): Option<T> {
    match o
    case None => None
    case Some(v) => Some(f(v))
  }

  function TargetPayload(t: Target): Value {
    var f := map[EnabledName := Bool(t.enabled)];
    var f1 := Put(f, UserIdsName, Mapped(t.userIds, TextList));
    var f2 := Put(f1, OrganizationIdsName, Mapped(t.organizationIds, TextList));
    var f3 := Put(f2, ApplicationVersionsName, Mapped(t.applicationVersions, TextList));
    var f4 := Put(f3, RolloutPercentageName, Mapped(t.rolloutPercentage, n => Int(n)));
    var f5 := Put(f4, StartsAtName, Mapped(t.startsAt, s => Text(s)));
    Object(Put(f5, EndsAtName, Mapped(t.endsAt, s => Text(s))))
  }

  function Payload(flag: Flag): Value {
    match flag
    case Global(enabled) => Object(map[EnabledName := Bool(enabled)])
    case Targeted(defaultEnabled, target) =>
      Object(map[DefaultEnabledName := Bool(defaultEnabled), TargetName := TargetPayload(target)])
  }

  // ----- Normalising twice -----

  /** A time that some text denotes is written with its offset, without white space, and reads back as itself. */
  ghost predicate Faithful(env: Env) {
    forall s :: env.parse(s).Some? ==> WritesWell(env, env.parse(s).value)
  }

  predicate WritesWell(env: Env, t: int) {
    env.parse(env.write(t)) == Some(t) && HasOffset(env.write(t)) && Trim(env.write(t)) == env.write(t)
  }

  /** A normalised list: sorted, without repetition, of valid trimmed members, and no longer than allowed. */
  predicate IsNormalList(s: seq<string>, maximum: nat, valid: string -> bool) {
    && Increasing(s) && 1 <= |s| <= maximum
    && forall i :: 0 <= i < |s| ==> valid(s[i]) && Trim(s[i]) == s[i]
  }

  lemma {:induction false} SortedSetShrinks(items: seq<string>)
    ensures |SortedSet(items)| <= |items|
    ensures items != [] ==> SortedSet(items) != []
  {
    if items != [] {
      SortedSetShrinks(items[1..]);
      IncludeAddsOne(items[0], SortedSet(items[1..]));
      assert items[0] in SortedSet(items);
    }
  }

  lemma {:induction false} IncludeAddsOne(x: string, s: seq<string>)
    requires Increasing(s)
    ensures |Include(x, s)| <= |s| + 1
  {
    if s != [] && x != s[0] && !Less(x, s[0]) {
      IncludeAddsOne(x, s[1..]);
    }
  }

  lemma NormalizedListIsNormal(value: Value, maximum: nat, valid: string -> bool)
    requires NormalizedList(value, maximum, valid).Some?
    ensures IsNormalList(NormalizedList(value, maximum, valid).value, maximum, valid)
    ensures forall x :: x in NormalizedList(value, maximum, valid).value <==> x in TrimmedTexts(value.items)
  {
    var texts := TrimmedTexts(value.items);
    var s := SortedSet(texts);
    SortedSetShrinks(texts);
    forall i | 0 <= i < |s| ensures valid(s[i]) && Trim(s[i]) == s[i] {
      assert s[i] in texts;
      var k :| 0 <= k < |texts| && texts[k] == s[i];
      if value.items[k].Text? {
        TrimTrims(value.items[k].text);
        NothingToTrim(s[i]);
      }
    }
  }

  lemma NormalListAgain(s: seq<string>, maximum: nat, valid: string -> bool)
    requires IsNormalList(s, maximum, valid)
    ensures NormalizedList(TextList(s), maximum, valid) == Some(s)
  {
    assert TrimmedTexts(TextList(s).items) == s;
    SortedSetFixes(s);
  }

  /** What normalising a target guarantees. */
  predicate IsNormalTarget(env: Env, t: Target) {
    && (t.userIds.Some? ==> IsNormalList(t.userIds.value, 100, IsIdentifier))
    && (t.organizationIds.Some? ==> IsNormalList(t.organizationIds.value, 100, IsIdentifier))
    && (t.applicationVersions.Some? ==> IsNormalList(t.applicationVersions.value, 20, env.semver))
    && (t.rolloutPercentage.Some? ==> 0 <= t.rolloutPercentage.value <= 100)
    && (t.startsAt.Some? ==> IsNormalTimestamp(env, t.startsAt.value))
    && (t.endsAt.Some? ==> IsNormalTimestamp(env, t.endsAt.value))
    && WindowOrdered(env, t.startsAt, t.endsAt)
    && Selects(t)
  }

  /** At least one condition besides the outcome. */
  predicate Selects(t: Target) {
    || t.userIds.Some? || t.organizationIds.Some? || t.applicationVersions.Some? || t.rolloutPercentage.Some?
    || t.startsAt.Some? || t.endsAt.Some?
  }

  predicate IsNormalTimestamp(env: Env, s: string) {
    HasOffset(s) && Trim(s) == s && env.parse(s).Some? && env.write(env.parse(s).value) == s
  }

  lemma NormalTargetIsNormal(env: Env, value: Value)
    requires Faithful(env) && NormalizeTarget(env, value).Some?
    ensures IsNormalTarget(env, NormalizeTarget(env, value).value)
  {
    var t, f := NormalizeTarget(env, value).value, value.fields;
    if t.userIds.Some? {
      NormalizedListIsNormal(f[UserIdsName], 100, IsIdentifier);
    }
    if t.organizationIds.Some? {
      NormalizedListIsNormal(f[OrganizationIdsName], 100, IsIdentifier);
    }
    if t.applicationVersions.Some? {
      NormalizedListIsNormal(f[ApplicationVersionsName], 20, env.semver);
    }
    NormalTargetSelects(env, value);
    if t.startsAt.Some? {
      TimestampIsNormal(env, f[StartsAtName]);
    }
    if t.endsAt.Some? {
      TimestampIsNormal(env, f[EndsAtName]);
    }
  }

  lemma TimestampIsNormal(env: Env, value: Value)
    requires Faithful(env) && NormalizedTimestamp(env, value).Some?
    ensures IsNormalTimestamp(env, NormalizedTimestamp(env, value).value)
  {
  }

  lemma NormalTargetSelects(env: Env, value: Value)
    requires NormalizeTarget(env, value).Some?
    ensures Selects(NormalizeTarget(env, value).value)
  {
    var key :| key in TARGET_KEYS && key != EnabledName && key in value.fields;
  }

  predicate HoldsField(f: map<Name, Value>, key: Name, value: Option<Value>) {
    if value.Some? then key in f && f[key] == value.value else key !in f
  }

  /** The payload of a target has exactly the fields the target has. */
  lemma PayloadFields(t: Target)
    ensures var f := TargetPayload(t).fields;
      && f.Keys <= TARGET_KEYS && HoldsField(f, EnabledName, Some(Bool(t.enabled)))
      && HoldsField(f, UserIdsName, Mapped(t.userIds, TextList))
      && HoldsField(f, OrganizationIdsName, Mapped(t.organizationIds, TextList))
      && HoldsField(f, ApplicationVersionsName, Mapped(t.applicationVersions, TextList))
      && HoldsField(f, RolloutPercentageName, Mapped(t.rolloutPercentage, n => Int(n)))
      && HoldsField(f, StartsAtName, Mapped(t.startsAt, s => Text(s)))
      && HoldsField(f, EndsAtName, Mapped(t.endsAt, s => Text(s)))
  {
  }

  lemma ListField(f: map<Name, Value>, key: Name, o: Option<seq<string>>, maximum: nat, valid: string -> bool,
                  normalize: Value -> Option<seq<string>>)
    requires HoldsField(f, key, Mapped(o, TextList)) && (o.Some? ==> IsNormalList(o.value, maximum, valid))
    requires o.Some? ==> normalize(TextList(o.value)) == NormalizedList(TextList(o.value), maximum, valid)
    ensures FieldOf(f, key, normalize) == if o.Some? then Given(o.value) else Absent
  {
    if o.Some? {
      NormalListAgain(o.value, maximum, valid);
    }
  }

  lemma TimeField(env: Env, f: map<Name, Value>, key: Name, o: Option<string>)
    requires HoldsField(f, key, Mapped(o, s => Text(s))) && (o.Some? ==> IsNormalTimestamp(env, o.value))
    ensures FieldOf(f, key, AsTimestamp(env)) == if o.Some? then Given(o.value) else Absent
  {
  }

  function AsField<T>(o: Option<T>): Field<T> {
    if o.Some? then Given(o.value) else Absent
  }

  predicate ReadsAs(env: Env, f: map<Name, Value>, t: Target) {
    && FieldOf(f, UserIdsName, AsIdentifiers()) == AsField(t.userIds)
    && FieldOf(f, OrganizationIdsName, AsIdentifiers()) == AsField(t.organizationIds)
    && FieldOf(f, ApplicationVersionsName, AsVersions(env)) == AsField(t.applicationVersions)
    && FieldOf(f, RolloutPercentageName, AsPercentage()) == AsField(t.rolloutPercentage)
    && FieldOf(f, StartsAtName, AsTimestamp(env)) == AsField(t.startsAt)
    && FieldOf(f, EndsAtName, AsTimestamp(env)) == AsField(t.endsAt)
  }

  lemma PayloadReadsAs(env: Env, t: Target)
    requires IsNormalTarget(env, t)
    ensures ReadsAs(env, TargetPayload(t).fields, t)
  {
    var f := TargetPayload(t).fields;
    PayloadFields(t);
    ListField(f, UserIdsName, t.userIds, 100, IsIdentifier, AsIdentifiers());
    ListField(f, OrganizationIdsName, t.organizationIds, 100, IsIdentifier, AsIdentifiers());
    ListField(f, ApplicationVersionsName, t.applicationVersions, 20, env.semver, AsVersions(env));
    TimeField(env, f, StartsAtName, t.startsAt);
    TimeField(env, f, EndsAtName, t.endsAt);
  }

  lemma ReadFields(env: Env, f: map<Name, Value>, t: Target)
    requires ReadsAs(env, f, t) && HasSelector(f) && f.Keys <= TARGET_KEYS
      && HoldsField(f, EnabledName, Some(Bool(t.enabled)))
    requires WindowOrdered(env, t.startsAt, t.endsAt)
    ensures NormalizeTarget(env, Object(f)) == Some(t)
  {
  }

  lemma TargetAgain(env: Env, t: Target)
    requires IsNormalTarget(env, t)
    ensures NormalizeTarget(env, TargetPayload(t)) == Some(t)
  {
    PayloadFields(t);
    PayloadReadsAs(env, t);
    SelectorKept(env, t);
    ReadFields(env, TargetPayload(t).fields, t);
  }

  lemma SelectorKept(env: Env, t: Target)
    requires IsNormalTarget(env, t)
    ensures HasSelector(TargetPayload(t).fields)
  {
    var f := TargetPayload(t).fields;
    PayloadFields(t);
    var key :=
      if t.userIds.Some? then UserIdsName
      else if t.organizationIds.Some? then OrganizationIdsName
      else if t.applicationVersions.Some? then ApplicationVersionsName
      else if t.rolloutPercentage.Some? then RolloutPercentageName
      else if t.startsAt.Some? then StartsAtName
      else EndsAtName;
    assert key in TARGET_KEYS && key in f;
  }

  /** Normalising is idempotent: the normal form of a payload is its own normal form. */
  lemma NormalizeTwice(env: Env, schemaVersion: int, value: Value)
    requires Faithful(env) && Normalize(env, schemaVersion, value).Some?
    ensures Normalize(env, schemaVersion, Payload(Normalize(env, schemaVersion, value).value)) ==
      Normalize(env, schemaVersion, value)
  {
    if schemaVersion == 2 {
      var target := NormalizeTarget(env, value.fields[TargetName]).value;
      NormalTargetIsNormal(env, value.fields[TargetName]);
      TargetAgain(env, target);
    }
  }

  /** Whatever the context, a valid payload and its normal form decide alike. */
  lemma NormalFormDecidesAlike(env: Env, environmentEnabled: bool, schemaVersion: int, value: Value, c: Context)
    requires Faithful(env) && Normalize(env, schemaVersion, value).Some?
    ensures Evaluate(env, environmentEnabled, schemaVersion, Payload(Normalize(env, schemaVersion, value).value), c)
      == Evaluate(env, environmentEnabled, schemaVersion, value, c)
  {
    NormalizeTwice(env, schemaVersion, value);
  }

  /** Order, repetition and surrounding white space in a list do not matter. */
  lemma ListsByMembers(a: Value, b: Value, maximum: nat, valid: string -> bool)
    requires NormalizedList(a, maximum, valid).Some? && b.List? && 1 <= |b.items| <= maximum
    requires forall x :: x in TrimmedTexts(a.items) <==> x in TrimmedTexts(b.items)
    ensures NormalizedList(b, maximum, valid) == NormalizedList(a, maximum, valid)
  {
    var s, t := TrimmedTexts(a.items), TrimmedTexts(b.items);
    forall i | 0 <= i < |t| ensures valid(t[i]) {
      assert t[i] in s;
      var k :| 0 <= k < |s| && s[k] == t[i];
    }
    IncreasingUnique(SortedSet(s), SortedSet(t));
  }

  // ----- Rolling out -----

  /** Raising the percentage only adds users. */
  lemma RolloutGrows(env: Env, t: Target, p: int, q: int, c: Context)
    requires 0 <= p <= q <= 100
    requires Matches(env, t.(rolloutPercentage := Some(p)), c)
    ensures Matches(env, t.(rolloutPercentage := Some(q)), c)
  {
    assert Bucket(env, c.userId.value) < p * 100 <= q * 100;
  }

  /** At 0 nobody is reached; at 100 exactly the identified users whom the other selectors admit. */
  lemma RolloutEnds(env: Env, t: Target, c: Context)
    ensures !Matches(env, t.(rolloutPercentage := Some(0)), c)
    ensures Matches(env, t.(rolloutPercentage := Some(100)), c) <==>
      Identified(c.userId) && Matches(env, t.(rolloutPercentage := None), c)
  {
  }

  /** Each user joins at one percentage, the same for every target, and stays in from there on. */
  function JoinsAt(env: Env, userId: string): (p: int)
    ensures 1 <= p <= 100
  {
    Bucket(env, userId) / 100 + 1
  }

  lemma UsersJoinOnce(env: Env, t: Target, p: int, c: Context)
    requires 0 <= p <= 100
    ensures Matches(env, t.(rolloutPercentage := Some(p)), c) <==>
      Identified(c.userId) && p >= JoinsAt(env, c.userId.value) && Matches(env, t.(rolloutPercentage := None), c)
  {
  }
}
