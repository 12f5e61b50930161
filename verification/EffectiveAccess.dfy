/**
 * The permissions a user ends up with: the rows of all active role assignments, folded into one grant
 * per permission key.
 */
module EffectiveAccess {
  import opened Common
  import opened Rbac
  import opened Texts

  const MAX_ID := 160

  /** A JSON column: an array of strings (Some) and other things (None), or no array at all. */
  datatype Unknown = NotArray | Array(items: seq<Option<string>>)

  datatype Row = Row(permissionKey: string, scope: DataScope, assignmentOrganizationId: Option<Id>,
                     assignmentOrganizationIds: Unknown, permissionOrganizationIds: Unknown)

  datatype Grant = Grant(scope: DataScope, organizationIds: seq<Id>)

  // ----- Which organizations a row reaches -----

  predicate IsOrganizationId(item: Option<string>) {
    item.Some? && 0 < |item.value| <= MAX_ID
  }

  /** The column is an array with this text in it, and the text can be an organization. */
  predicate Lists(column: Unknown, x: Id) {
    column.Array? && Some(x) in column.items && 0 < |x| <= 160
  }

  ghost predicate ListsAny(column: Unknown) {
    exists x :: Lists(column, x)
  }

  /** The single organization of the assignment, which counts only where its list has no organization. */
  predicate IsSingle(row: Row, x: Id) {
    row.assignmentOrganizationId == Some(x) && x != ""
  }

  ghost predicate AssignmentBinds(row: Row) {
    ListsAny(row.assignmentOrganizationIds) || exists x :: IsSingle(row, x)
  }

  ghost predicate AssignmentAdmits(row: Row, x: Id) {
    if ListsAny(row.assignmentOrganizationIds) then Lists(row.assignmentOrganizationIds, x) else IsSingle(row, x)
  }

  /**
   * Read off the columns of the row: the assignment and the permission bind where they name anything, at least one
   * of them does, and the organization passes both.
   */
  ghost predicate Admits(row: Row, x: Id) {
    && (AssignmentBinds(row) || ListsAny(row.permissionOrganizationIds))
    && (AssignmentBinds(row) ==> AssignmentAdmits(row, x))
    && (ListsAny(row.permissionOrganizationIds) ==> Lists(row.permissionOrganizationIds, x))
  }

  function Cleaned(items: seq<Option<string>>): (r: seq<string>)
    ensures forall x :: x in r <==> IsOrganizationId(Some(x)) && Some(x) in items
  {
    if items == [] then []
    else (if IsOrganizationId(items[0]) then [items[0].value] else []) + Cleaned(items[1..])
  }

  function OrganizationIds(value: Unknown): (r: seq<Id>)
    ensures Increasing(r)
    ensures forall x :: x in r <==> Lists(value, x)
    ensures r != [] <==> ListsAny(value)
  {
    var r := match value
      case NotArray => []
      case Array(items) => SortedSet(Cleaned(items));
    assert forall x :: x in r ==> Lists(value, x);
    assert r != [] ==> r[0] in r;
    r
  }

  function Filter(s: seq<Id>, keep: seq<Id>): (r: seq<Id>)
    requires Increasing(s)
    ensures Increasing(r)
    ensures forall x :: x in r <==> x in s && x in keep
  {
    if s == [] then []
    else
      var rest := Filter(s[1..], keep);
      assert forall y :: y in rest ==> Less(s[0], y);
      (if s[0] in keep then [s[0]] else []) + rest
  }

  /** What the assignment itself names: its list, or failing that its single organization. */
  function AssignedIds(row: Row): (r: seq<Id>)
    ensures Increasing(r)
    ensures r != [] <==> AssignmentBinds(row)
    ensures forall x :: x in r <==> AssignmentAdmits(row, x)
  {
    var listed := OrganizationIds(row.assignmentOrganizationIds);
    if listed == [] && row.assignmentOrganizationId.Some? && row.assignmentOrganizationId.value != "" then
      assert IsSingle(row, row.assignmentOrganizationId.value);
      [row.assignmentOrganizationId.value]
    else listed
  }

  /** The organizations a row reaches: exactly those that its columns admit. */
  function BoundedOrganizationIds(row: Row): (r: seq<Id>)
    ensures Increasing(r)
    ensures forall x :: x in r <==> Admits(row, x)
  {
    var assignment := AssignedIds(row);
    var permission := OrganizationIds(row.permissionOrganizationIds);
    if permission == [] then assignment
    else if assignment == [] then permission
    else Filter(assignment, permission)
  }

  // ----- What the fold means -----

  /** A row that names no organization it may act in grants nothing under an organization scope. */
  predicate Survives(row: Row) {
    row.scope.IsOrganization() ==> BoundedOrganizationIds(row) != []
  }

  predicate SameClass(s: DataScope, t: DataScope) {
    s == t || (s.IsOrganization() && t.IsOrganization())
  }

  predicate Counts(rows: set<Row>, key: string, row: Row) {
    row in rows && row.permissionKey == key && Survives(row)
  }

  ghost predicate Granted(rows: set<Row>, key: string) {
    exists row :: Counts(rows, key, row)
  }

  ghost predicate Reaches(rows: set<Row>, key: string, scope: DataScope, x: Id) {
    exists row :: Counts(rows, key, row) && SameClass(row.scope, scope) && x in BoundedOrganizationIds(row)
  }

  /**
   * The grant for a key: the widest scope of its surviving rows, and the sorted, duplicate-free union of
   * the organizations of the rows in that scope's class. A platform grant names no organizations.
   */
  ghost predicate IsGrant(rows: set<Row>, key: string, g: Grant) {
    && (exists row :: Counts(rows, key, row) && row.scope == g.scope)
    && (forall row :: Counts(rows, key, row) ==> Rank(row.scope) <= Rank(g.scope))
    && Increasing(g.organizationIds)
    && (forall x :: x in g.organizationIds <==> !g.scope.Platform? && Reaches(rows, key, g.scope, x))
  }

  ghost predicate IsAccess(rows: set<Row>, grants: map<string, Grant>) {
    && (forall key :: key in grants <==> Granted(rows, key))
    && (forall key :: key in grants ==> IsGrant(rows, key, grants[key]))
  }

  function RowSet(rows: seq<Row>): set<Row> {
    set row | row in rows
  }

  lemma RankIsInjective(s: DataScope, t: DataScope)
    ensures Rank(s) == Rank(t) <==> s == t
  {
  }

  lemma GrantUnique(rows: set<Row>, key: string, g: Grant, h: Grant)
    requires IsGrant(rows, key, g) && IsGrant(rows, key, h)
    ensures g == h
  {
    RankIsInjective(g.scope, h.scope);
    IncreasingUnique(g.organizationIds, h.organizationIds);
  }

  /** The result depends on which rows there are, not on their order or repetition. */
  lemma AccessUnique(rows: set<Row>, a: map<string, Grant>, b: map<string, Grant>)
    requires IsAccess(rows, a) && IsAccess(rows, b)
    ensures a == b
  {
    forall key | key in a ensures key in b && a[key] == b[key] {
      GrantUnique(rows, key, a[key], b[key]);
    }
  }

  // ----- The fold -----

  function Union(s: seq<Id>, t: seq<Id>): seq<Id> {
    SortedSet(s + t)
  }

  function Incoming(row: Row): Grant {
    Grant(row.scope, if row.scope.Platform? then [] else BoundedOrganizationIds(row))
  }

  function Merge(current: Option<Grant>, incoming: Grant): Grant {
    if current.Some? && current.value.scope.IsOrganization() && incoming.scope.IsOrganization() then
      Grant(if Rank(incoming.scope) > Rank(current.value.scope) then incoming.scope else current.value.scope,
            Union(current.value.organizationIds, incoming.organizationIds))
    else if current.None? || Rank(incoming.scope) > Rank(current.value.scope) then incoming
    else if Rank(incoming.scope) == Rank(current.value.scope) then
      current.value.(organizationIds := Union(current.value.organizationIds, incoming.organizationIds))
    else current.value
  }

  lemma CountsOneMore(rows: set<Row>, row: Row, key: string)
    ensures forall r :: Counts(rows + {row}, key, r) <==>
      Counts(rows, key, r) || (r == row && key == row.permissionKey && Survives(row))
  {
  }

  /** A row that does not count for a key leaves its grant alone. */
  lemma OtherRow(rows: set<Row>, row: Row, key: string, g: Grant)
    requires key != row.permissionKey || !Survives(row)
    ensures Granted(rows + {row}, key) <==> Granted(rows, key)
    ensures IsGrant(rows, key, g) <==> IsGrant(rows + {row}, key, g)
  {
    CountsOneMore(rows, row, key);
    assert forall r :: Counts(rows + {row}, key, r) <==> Counts(rows, key, r);
    assert forall x, s :: Reaches(rows + {row}, key, s, x) <==> Reaches(rows, key, s, x);
  }

  lemma FirstRow(rows: set<Row>, row: Row)
    requires Survives(row) && !Granted(rows, row.permissionKey)
    ensures IsGrant(rows + {row}, row.permissionKey, Merge(None, Incoming(row)))
  {
    var key := row.permissionKey;
    CountsOneMore(rows, row, key);
    assert forall r :: Counts(rows + {row}, key, r) <==> r == row;
  }

  /** The top row stays, or the new one takes its place. */
  lemma NextTop(rows: set<Row>, row: Row, g: Grant)
    requires Survives(row) && IsGrant(rows, row.permissionKey, g)
    ensures var key, more, h := row.permissionKey, rows + {row}, Merge(Some(g), Incoming(row));
      && (exists r :: Counts(more, key, r) && r.scope == h.scope)
      && (forall r :: Counts(more, key, r) ==> Rank(r.scope) <= Rank(h.scope))
      && (SameClass(g.scope, h.scope) || Rank(g.scope) < Rank(h.scope))
  {
    var key := row.permissionKey;
    CountsOneMore(rows, row, key);
    RankIsInjective(g.scope, row.scope);
    var top :| Counts(rows, key, top) && top.scope == g.scope;
    assert Counts(rows + {row}, key, top) && Counts(rows + {row}, key, row);
  }

  lemma ReachesOneMore(rows: set<Row>, row: Row, scope: DataScope, x: Id)
    requires Survives(row)
    ensures var key := row.permissionKey;
      Reaches(rows + {row}, key, scope, x) <==>
        Reaches(rows, key, scope, x) || (SameClass(row.scope, scope) && x in BoundedOrganizationIds(row))
  {
    var key := row.permissionKey;
    CountsOneMore(rows, row, key);
    if Reaches(rows, key, scope, x) {
      var r :| Counts(rows, key, r) && SameClass(r.scope, scope) && x in BoundedOrganizationIds(r);
      assert Counts(rows + {row}, key, r);
    }
    assert Counts(rows + {row}, key, row);
  }

  /** A class above the widest scope so far reaches nothing yet. */
  lemma NothingAbove(rows: set<Row>, key: string, g: Grant, scope: DataScope, x: Id)
    requires IsGrant(rows, key, g) && !SameClass(g.scope, scope) && Rank(g.scope) < Rank(scope)
    ensures !Reaches(rows, key, scope, x)
  {
    forall r | Counts(rows, key, r) ensures !SameClass(r.scope, scope) {
      assert Rank(r.scope) <= Rank(g.scope);
    }
  }

  lemma NextRow(rows: set<Row>, row: Row, g: Grant)
    requires Survives(row) && IsGrant(rows, row.permissionKey, g)
    ensures IsGrant(rows + {row}, row.permissionKey, Merge(Some(g), Incoming(row)))
  {
    var key, more := row.permissionKey, rows + {row};
    var h := Merge(Some(g), Incoming(row));
    NextTop(rows, row, g);
    RankIsInjective(g.scope, row.scope);
    forall x ensures x in h.organizationIds <==> !h.scope.Platform? && Reaches(more, key, h.scope, x) {
      ReachesOneMore(rows, row, h.scope, x);
      if SameClass(g.scope, h.scope) {
        assert Reaches(rows, key, g.scope, x) <==> Reaches(rows, key, h.scope, x);
      } else {
        NothingAbove(rows, key, g, h.scope, x);
      }
    }
  }

  function Step(grants: map<string, Grant>, row: Row): map<string, Grant> {
    var key := row.permissionKey;
    if Survives(row) then grants[key := Merge(if key in grants then Some(grants[key]) else None, Incoming(row))]
    else grants
  }

  lemma StepIsAccess(rows: set<Row>, row: Row, grants: map<string, Grant>)
    requires IsAccess(rows, grants)
    ensures IsAccess(rows + {row}, Step(grants, row))
  {
    var key, more, after := row.permissionKey, rows + {row}, Step(grants, row);
    forall k ensures k in after <==> Granted(more, k) {
      if k != key || !Survives(row) {
        OtherRow(rows, row, k, Incoming(row));
      } else {
        assert Counts(more, key, row);
      }
    }
    forall k | k in after ensures IsGrant(more, k, after[k]) {
      if k != key || !Survives(row) {
        OtherRow(rows, row, k, grants[k]);
      } else if key in grants {
        NextRow(rows, row, grants[key]);
      } else {
        FirstRow(rows, row);
      }
    }
  }

  /** One row, with the branches of the original fold. */
  method FoldRow(grants: map<string, Grant>, row: Row) returns (next: map<string, Grant>)
    ensures next == Step(grants, row)
  {
    hide BoundedOrganizationIds, SortedSet, Union, Rank, Admits;
    next := grants;
    var ids := BoundedOrganizationIds(row);
    if row.scope.IsOrganization() && ids == [] {
      return;
    }
    var key := row.permissionKey;
    var incoming := Grant(row.scope, if row.scope.Platform? then [] else ids);
    if key in grants {
      var current := grants[key];
      if current.scope.IsOrganization() && incoming.scope.IsOrganization() {
        if Rank(incoming.scope) > Rank(current.scope) {
          current := current.(scope := incoming.scope);
        }
        current := current.(organizationIds := Union(current.organizationIds, incoming.organizationIds));
      } else if Rank(incoming.scope) > Rank(current.scope) {
        current := incoming;
      } else if Rank(incoming.scope) == Rank(current.scope) {
        current := current.(organizationIds := Union(current.organizationIds, incoming.organizationIds));
      }
      next := grants[key := current];
    } else {
      next := grants[key := incoming];
    }
  }

  method RbacAccess(rows: seq<Row>) returns (grants: map<string, Grant>)
    ensures IsAccess(RowSet(rows), grants)
  {
    grants := map[];
    for i := 0 to |rows|
      invariant IsAccess(RowSet(rows[..i]), grants)
    {
      RowSetOneMore(rows, i);
      StepIsAccess(RowSet(rows[..i]), rows[i], grants);
      grants := FoldRow(grants, rows[i]);
    }
    assert rows[..|rows|] == rows;
  }

  lemma RowSetOneMore(rows: seq<Row>, i: nat)
    requires i < |rows|
    ensures RowSet(rows[..i + 1]) == RowSet(rows[..i]) + {rows[i]}
  {
    assert rows[..i + 1] == rows[..i] + [rows[i]];
  }

  // ----- What callers rely on -----

  /** Two lists with the same rows, in any order, give the same access. */
  lemma OrderDoesNotMatter(rows: seq<Row>, other: seq<Row>, a: map<string, Grant>, b: map<string, Grant>)
    requires multiset(rows) == multiset(other)
    requires IsAccess(RowSet(rows), a) && IsAccess(RowSet(other), b)
    ensures a == b
  {
    forall row ensures row in rows <==> row in other {
      assert row in rows <==> row in multiset(rows);
      assert row in other <==> row in multiset(other);
    }
    assert RowSet(rows) == RowSet(other);
    AccessUnique(RowSet(rows), a, b);
  }

  /** No organization is granted beyond what the columns of some row that grants it admit. */
  lemma IdsAreBounded(rows: set<Row>, grants: map<string, Grant>, key: string, x: Id)
    requires IsAccess(rows, grants) && key in grants && x in grants[key].organizationIds
    ensures exists row :: Counts(rows, key, row) && SameClass(row.scope, grants[key].scope) && Admits(row, x)
  {
    assert Reaches(rows, key, grants[key].scope, x);
  }

  /** In particular: where the assignment lists organizations, none outside that list. */
  lemma AssignmentListBinds(row: Row, x: Id)
    requires x in BoundedOrganizationIds(row) && row.assignmentOrganizationIds.Array?
    requires exists y :: Some(y) in row.assignmentOrganizationIds.items && 0 < |y| <= 160
    ensures Some(x) in row.assignmentOrganizationIds.items
  {
    var y :| Some(y) in row.assignmentOrganizationIds.items && 0 < |y| <= 160;
    assert Lists(row.assignmentOrganizationIds, y);
  }

  /** An organization grant always names at least one organization; a platform grant names none. */
  lemma OrganizationGrantsAreBound(rows: set<Row>, grants: map<string, Grant>, key: string)
    requires IsAccess(rows, grants) && key in grants
    ensures grants[key].scope.IsOrganization() ==> grants[key].organizationIds != []
    ensures grants[key].scope.Platform? ==> grants[key].organizationIds == []
  {
    var g := grants[key];
    var row :| Counts(rows, key, row) && row.scope == g.scope;
    assert g.organizationIds != [] ==> g.organizationIds[0] in g.organizationIds;
    if g.scope.IsOrganization() {
      var x := BoundedOrganizationIds(row)[0];
      assert Reaches(rows, key, g.scope, x);
    }
  }

  /** A further row never narrows what a user may do. */
  lemma MoreRowsMoreAccess(rows: set<Row>, more: set<Row>, a: map<string, Grant>, b: map<string, Grant>, key: string)
    requires IsAccess(rows, a) && IsAccess(rows + more, b) && key in a
    ensures key in b && Rank(a[key].scope) <= Rank(b[key].scope)
    ensures SameClass(a[key].scope, b[key].scope) ==>
      forall x :: x in a[key].organizationIds ==> x in b[key].organizationIds
  {
    hide BoundedOrganizationIds, Admits, Rank;
    var row :| Counts(rows, key, row) && row.scope == a[key].scope;
    assert Counts(rows + more, key, row);
    assert Granted(rows + more, key);
    if SameClass(a[key].scope, b[key].scope) {
      forall x | x in a[key].organizationIds ensures x in b[key].organizationIds {
        var r :| Counts(rows, key, r) && SameClass(r.scope, a[key].scope) && x in BoundedOrganizationIds(r);
        assert Counts(rows + more, key, r);
        assert Reaches(rows + more, key, b[key].scope, x);
      }
    }
  }
}
