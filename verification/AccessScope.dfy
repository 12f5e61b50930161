/**
 * Who may see whom, twice: a bounded, cycle-safe walk up the reporting lines in memory, and a recursive
 * query over the users table. The two are meant to agree.
 */
module AccessScope {
  import opened Common
  import opened Rbac

  const MAX_DEPTH := 32

  datatype Actor = Actor(id: Id, organizationId: Option<Id>)

  datatype Person = Person(id: Id, organizationId: Option<Id>, reportsTo: Option<Id>)

  /** Null and the empty string both count as absent. */
  function Truthy(id: Option<Id>): Option<Id> {
    if id == Some("") then None else id
  }

  /** A later entry replaces an earlier one of the same id. */
  function ById(people: seq<Person>): map<Id, Person> {
    if people == [] then map[]
    else
      var last := people[|people| - 1];
      ById(people[..|people| - 1])[last.id := last]
  }

  function EffectiveOrganizations(actor: Actor, organizationIds: seq<Id>): seq<Id> {
    if organizationIds != [] then organizationIds
    else match Truthy(actor.organizationId)
      case None => []
      case Some(id) => [id]
  }

  /** The manager `n` levels above the direct one. */
  function BossAt(byId: map<Id, Person>, target: Person, n: nat): Option<Id> {
    if n == 0 then Truthy(target.reportsTo)
    else match BossAt(byId, target, n - 1)
      case None => None
      case Some(id) => if id in byId then Truthy(byId[id].reportsTo) else None
  }

  /** The actor is one of the first 32 managers. */
  ghost predicate Manages(byId: map<Id, Person>, target: Person, actorId: Id) {
    exists n: nat :: n < MAX_DEPTH && BossAt(byId, target, n) == Some(actorId)
  }

  ghost predicate CanAccess(scope: DataScope, actor: Actor, target: Person, people: seq<Person>,
                            organizationIds: seq<Id>) {
    if scope.Platform? || target.id == actor.id then true
    else if scope.Self? then false
    else if scope.DirectReports? then target.reportsTo == Some(actor.id)
    else if scope.TeamTree? then Manages(ById(people), target, actor.id)
    else
      var organization := Truthy(target.organizationId);
      organization.Some? && organization.value in EffectiveOrganizations(actor, organizationIds)
  }

  // ----- The walk -----

  lemma {:induction false} NobodyAbove(byId: map<Id, Person>, target: Person, n: nat, m: nat)
    requires BossAt(byId, target, n).None? && n <= m
    ensures BossAt(byId, target, m).None?
    decreases m
  {
    if n < m {
      NobodyAbove(byId, target, n, m - 1);
    }
  }

  /** Once a manager repeats, the walk stays among the managers it has seen, however long it goes on. */
  lemma {:induction false} CycleStays(byId: map<Id, Person>, target: Person, seen: set<Id>, n: nat)
    requires BossAt(byId, target, 0).Some? ==> BossAt(byId, target, 0).value in seen
    requires forall id :: id in seen && id in byId && Truthy(byId[id].reportsTo).Some? ==>
      byId[id].reportsTo.value in seen
    ensures BossAt(byId, target, n).Some? ==> BossAt(byId, target, n).value in seen
  {
    if n > 0 {
      CycleStays(byId, target, seen, n - 1);
    }
  }

  method CanAccessInternalUser(scope: DataScope, actor: Actor, target: Person, people: seq<Person>,
                               organizationIds: seq<Id>)
    returns (r: bool)
    ensures r <==> CanAccess(scope, actor, target, people, organizationIds)
  {
    if scope.Platform? {
      return true;
    }
    if target.id == actor.id {
      return true;
    }
    if scope.Self? {
      return false;
    }
    if scope.DirectReports? {
      return target.reportsTo == Some(actor.id);
    }
    if scope.IsOrganization() {
      var organization := Truthy(target.organizationId);
      return organization.Some? && organization.value in EffectiveOrganizations(actor, organizationIds);
    }
    var byId := ById(people);
    var current := Some(target);
    var seen: set<Id> := {};
    var depth := 0;
    while current.Some? && Truthy(current.value.reportsTo).Some? && depth < MAX_DEPTH
      invariant 0 <= depth <= MAX_DEPTH
      invariant BossAt(byId, target, depth) == if current.Some? then Truthy(current.value.reportsTo) else None
      invariant forall n: nat :: n < depth ==> BossAt(byId, target, n) != Some(actor.id)
      invariant actor.id !in seen
      invariant forall n: nat :: n < depth ==> BossAt(byId, target, n).Some? && BossAt(byId, target, n).value in seen
      invariant forall id :: id in seen && id in byId && Truthy(byId[id].reportsTo).Some? ==>
        byId[id].reportsTo.value in seen || (current.Some? && byId[id].reportsTo == current.value.reportsTo)
      decreases MAX_DEPTH - depth
    {
      var boss := current.value.reportsTo.value;
      assert BossAt(byId, target, depth) == Some(boss);
      if boss == actor.id {
        return true;
      }
      if boss in seen {
        forall n: nat ensures BossAt(byId, target, n) != Some(actor.id) {
          CycleStays(byId, target, seen, n);
        }
        return false;
      }
      seen := seen + {boss};
      current := if boss in byId then Some(byId[boss]) else None;
      depth := depth + 1;
    }
    if depth < MAX_DEPTH {
      forall n: nat | depth <= n ensures BossAt(byId, target, n).None? {
        NobodyAbove(byId, target, depth, n);
      }
    }
    return false;
  }

  // ----- The recursive query -----

  /** The working table of the recursive query after `d` rounds, joined by identifier. */
  ghost function Ancestors(users: set<Person>, row: Person, d: nat): set<Person> {
    if d == 0 then {row}
    else set parent | parent in users && ReportsWithin(Ancestors(users, row, d - 1), parent.id)
  }

  ghost predicate ReportsWithin(rows: set<Person>, id: Id) {
    exists q :: q in rows && q.reportsTo == Some(id)
  }

  /** The predicate for one row of the users table. */
  ghost predicate SqlAllows(scope: DataScope, actor: Actor, row: Person, users: set<Person>, organizationIds: seq<Id>) {
    match scope
    case Platform => true
    case Self => row.id == actor.id
    case DirectReports => row.id == actor.id || row.reportsTo == Some(actor.id)
    case TeamTree => exists d: nat, p :: d <= MAX_DEPTH && p in Ancestors(users, row, d) && p.id == actor.id
    case _ =>
      && EffectiveOrganizations(actor, organizationIds) != []
      && row.organizationId.Some?
      && row.organizationId.value in EffectiveOrganizations(actor, organizationIds)
  }

  /** Identifiers are unique and not empty, as a primary key of text form is. */
  ghost predicate UsersTable(users: set<Person>) {
    && (forall p, q :: p in users && q in users && p.id == q.id ==> p == q)
    && (forall p :: p in users ==> p.id != "" && p.organizationId != Some(""))
  }

  ghost predicate Known(users: set<Person>, id: Id) {
    exists p :: p in users && p.id == id
  }

  /** `people` lists the whole table, in any order. */
  ghost predicate Lists(people: seq<Person>, users: set<Person>) {
    forall p :: p in people <==> p in users
  }

  lemma {:induction false} ByIdMembers(people: seq<Person>)
    ensures forall id :: id in ById(people) ==> ById(people)[id] in people && ById(people)[id].id == id
    ensures forall p :: p in people ==> p.id in ById(people)
  {
    if people != [] {
      var front, last := people[..|people| - 1], people[|people| - 1];
      ByIdMembers(front);
      assert people == front + [last];
    }
  }

  lemma ByIdIsTable(people: seq<Person>, users: set<Person>)
    requires UsersTable(users) && Lists(people, users)
    ensures forall p :: p in users ==> p.id in ById(people) && ById(people)[p.id] == p
    ensures forall id :: id in ById(people) ==> ById(people)[id] in users && ById(people)[id].id == id
  {
    ByIdMembers(people);
    forall p | p in users ensures p.id in ById(people) && ById(people)[p.id] == p {
      assert p in people;
      assert ById(people)[p.id] in people;
    }
  }

  /** The working table after `d + 1` rounds holds exactly the manager at level `d`, if the table has that user. */
  lemma {:induction false} AncestorsAre(people: seq<Person>, users: set<Person>, row: Person, d: nat)
    requires UsersTable(users) && Lists(people, users)
    ensures var byId, boss := ById(people), BossAt(ById(people), row, d);
      Ancestors(users, row, d + 1) == if boss.Some? && boss.value in byId then {byId[boss.value]} else {}
  {
    var byId := ById(people);
    var boss := BossAt(byId, row, d);
    ByIdIsTable(people, users);
    var before := Ancestors(users, row, d);
    if d > 0 {
      AncestorsAre(people, users, row, d - 1);
    }
    forall parent | parent in users
      ensures ReportsWithin(before, parent.id) <==> boss == Some(parent.id)
    {
      if ReportsWithin(before, parent.id) {
        var q :| q in before && q.reportsTo == Some(parent.id);
        assert boss == Some(parent.id);
      }
      if boss == Some(parent.id) {
        var q := if d == 0 then row else byId[BossAt(byId, row, d - 1).value];
        assert q in before && q.reportsTo == Some(parent.id);
      }
    }
  }

  /**
   * For a whole table, the recursive query finds the actor exactly on the row itself and on the walk's true
   * answers.
   */
  lemma TeamTreeAgrees(actor: Actor, row: Person, people: seq<Person>, users: set<Person>)
    requires UsersTable(users) && Lists(people, users)
    ensures SqlAllows(TeamTree, actor, row, users, []) <==>
      row.id == actor.id || (Manages(ById(people), row, actor.id) && Known(users, actor.id))
  {
    hide ById, BossAt, Ancestors, UsersTable, Lists;
    if row.id == actor.id {
      ActorIsRow(row, users);
    } else if SqlAllows(TeamTree, actor, row, users, []) {
      QueryIsWalk(actor, row, people, users);
    }
    if Manages(ById(people), row, actor.id) && Known(users, actor.id) {
      WalkIsQuery(actor, row, people, users);
    }
  }

  lemma ActorIsRow(row: Person, users: set<Person>)
    ensures row in Ancestors(users, row, 0)
  {
  }

  lemma QueryIsWalk(actor: Actor, row: Person, people: seq<Person>, users: set<Person>)
    requires UsersTable(users) && Lists(people, users) && row.id != actor.id
    requires SqlAllows(TeamTree, actor, row, users, [])
    ensures Manages(ById(people), row, actor.id) && Known(users, actor.id)
  {
    var d: nat, p :| d <= MAX_DEPTH && p in Ancestors(users, row, d) && p.id == actor.id;
    assert d > 0;
    AncestorsAre(people, users, row, d - 1);
    ByIdIsTable(people, users);
    assert BossAt(ById(people), row, d - 1) == Some(actor.id);
  }

  lemma WalkIsQuery(actor: Actor, row: Person, people: seq<Person>, users: set<Person>)
    requires UsersTable(users) && Lists(people, users)
    requires Manages(ById(people), row, actor.id) && Known(users, actor.id)
    ensures SqlAllows(TeamTree, actor, row, users, [])
  {
    ByIdIsTable(people, users);
    var n: nat :| n < MAX_DEPTH && BossAt(ById(people), row, n) == Some(actor.id);
    AncestorsAre(people, users, row, n);
    assert ById(people)[actor.id] in Ancestors(users, row, n + 1);
  }

  /**
   * The two readings agree for every scope and every reporting graph, with exactly two exceptions: the walk
   * always lets an actor see themself where an organization query may not, and it trusts a manager id that
   * the table does not have.
   */
  lemma WalkAgreesWithQuery(scope: DataScope, actor: Actor, row: Person, people: seq<Person>, users: set<Person>,
                            organizationIds: seq<Id>)
    requires UsersTable(users) && Lists(people, users) && row in users
    ensures CanAccess(scope, actor, row, people, organizationIds) <==>
      || SqlAllows(scope, actor, row, users, organizationIds)
      || (scope.IsOrganization() && row.id == actor.id)
      || (scope.TeamTree? && !Known(users, actor.id) && Manages(ById(people), row, actor.id))
  {
    if scope.TeamTree? {
      TeamTreeAgrees(actor, row, people, users);
    }
  }

  /** For an actor who is a user, the scopes that do not speak of organizations agree outright. */
  lemma ActorsScopesAgree(scope: DataScope, actor: Actor, row: Person, people: seq<Person>, users: set<Person>,
                          organizationIds: seq<Id>)
    requires UsersTable(users) && Lists(people, users) && row in users && Known(users, actor.id)
    requires !scope.IsOrganization()
    ensures CanAccess(scope, actor, row, people, organizationIds) <==>
      SqlAllows(scope, actor, row, users, organizationIds)
  {
    WalkAgreesWithQuery(scope, actor, row, people, users, organizationIds);
  }

  // ----- What counts as absent -----

  /**
   * Within organizations a stranger is seen exactly if they are in an organization that is listed or, without a
   * list, in the actor's own; the empty string is no organization.
   */
  lemma StrangersByOrganization(scope: DataScope, actor: Actor, target: Person, people: seq<Person>,
                                organizationIds: seq<Id>)
    requires scope.IsOrganization() && target.id != actor.id
    ensures CanAccess(scope, actor, target, people, organizationIds) <==>
      && target.organizationId.Some? && target.organizationId.value != ""
      && if organizationIds == [] then actor.organizationId == target.organizationId
         else target.organizationId.value in organizationIds
  {
  }

  /** Whoever has no manager, or an empty one, is in nobody's team but their own. */
  lemma TopIsNobodys(actor: Actor, target: Person, people: seq<Person>)
    requires target.reportsTo.None? || target.reportsTo.value == ""
    ensures CanAccess(TeamTree, actor, target, people, []) <==> target.id == actor.id
  {
    forall n: nat ensures BossAt(ById(people), target, n).None? {
      NobodyAbove(ById(people), target, 0, n);
    }
  }
}
