/**
 * The canonical text behind every idempotency check: object keys sorted at every depth.
 *
 * `Meaning` reads a JSON value as a jsonb column stores it, with objects as finite maps. Replay
 * checks compare canonical texts (through a hash) where they mean to compare meanings.
 */
module Canonical {
  import opened Json

  /** A comparison function as Array.prototype.sort takes it; the source passes localeCompare. */
  type Comparator = (string, string) -> int

  /** What the sort relies on: the signs mirror each other, and "not after" is transitive. */
  ghost predicate Consistent(cmp: Comparator) {
    && (forall a, b :: cmp(a, b) < 0 <==> cmp(b, a) > 0)
    && (forall a, b, c :: cmp(a, b) <= 0 && cmp(b, c) <= 0 ==> cmp(a, c) <= 0)
  }

  // ----- Sorting -----

  /** Inserts before the first field that does not come earlier, which keeps the sort stable. */
  function Insert(cmp: Comparator, f: Field, s: seq<Field>): seq<Field> {
    if s == [] || cmp(f.key, s[0].key) <= 0 then [f] + s else [s[0]] + Insert(cmp, f, s[1..])
  }

  function Sort(cmp: Comparator, fields: seq<Field>): seq<Field> {
    if fields == [] then [] else Insert(cmp, fields[0], Sort(cmp, fields[1..]))
  }

  lemma {:induction false} InsertKeepsMembers(cmp: Comparator, f: Field, s: seq<Field>)
    ensures multiset(Insert(cmp, f, s)) == multiset{f} + multiset(s)
  {
    if s != [] && cmp(f.key, s[0].key) > 0 {
      InsertKeepsMembers(cmp, f, s[1..]);
      assert s == [s[0]] + s[1..];
    }
  }

  lemma {:induction false} SortKeepsMembers(cmp: Comparator, fields: seq<Field>)
    ensures multiset(Sort(cmp, fields)) == multiset(fields)
  {
    if fields != [] {
      SortKeepsMembers(cmp, fields[1..]);
      InsertKeepsMembers(cmp, fields[0], Sort(cmp, fields[1..]));
      assert fields == [fields[0]] + fields[1..];
    }
  }

  lemma SortMember(cmp: Comparator, fields: seq<Field>, f: Field)
    ensures f in Sort(cmp, fields) <==> f in fields
  {
    SortKeepsMembers(cmp, fields);
    assert f in Sort(cmp, fields) <==> f in multiset(Sort(cmp, fields));
    assert f in fields <==> f in multiset(fields);
  }

  // ----- The canonical text -----

  function Canonical(cmp: Comparator, j: Json): string
    decreases j, 1
  {
    match j
    case Arr(items) => "[" + CanonicalItems(cmp, items) + "]"
    case Obj(fields) =>
      SortKeepsMembers(cmp, fields);
      "{" + CanonicalFields(cmp, j, Sort(cmp, fields)) + "}"
    case _ => Print(j)
  }

  function CanonicalItems(cmp: Comparator, items: seq<Json>): string
    decreases items, 0
  {
    if items == [] then ""
    else if |items| == 1 then Canonical(cmp, items[0])
    else Canonical(cmp, items[0]) + "," + CanonicalItems(cmp, items[1..])
  }

  /** The sorted fields of `whole`, printed in order. */
  function CanonicalFields(cmp: Comparator, whole: Json, fields: seq<Field>): string
    requires whole.Obj? && multiset(fields) <= multiset(whole.fields)
    decreases whole, 0, |fields|
  {
    if fields == [] then ""
    else
      assert fields[0] in multiset(fields);
      assert fields[0] in whole.fields;
      assert fields == [fields[0]] + fields[1..];
      var first := Quote(fields[0].key) + ":" + Canonical(cmp, fields[0].value);
      if |fields| == 1 then first else first + "," + CanonicalFields(cmp, whole, fields[1..])
  }

  // ----- Normal forms -----

  /** The value with its keys sorted at every depth. */
  function Norm(cmp: Comparator, j: Json): Json
    decreases j, 1
  {
    match j
    case Arr(items) => Arr(NormItems(cmp, items))
    case Obj(fields) => Obj(Sort(cmp, NormFields(cmp, fields)))
    case _ => j
  }

  function NormItems(cmp: Comparator, items: seq<Json>): seq<Json>
    decreases items, 0
  {
    if items == [] then [] else [Norm(cmp, items[0])] + NormItems(cmp, items[1..])
  }

  function NormField(cmp: Comparator, f: Field): Field
    decreases f, 1
  {
    Field(f.key, Norm(cmp, f.value))
  }

  function NormFields(cmp: Comparator, fields: seq<Field>): seq<Field>
    decreases fields, 0
  {
    if fields == [] then [] else [NormField(cmp, fields[0])] + NormFields(cmp, fields[1..])
  }

  lemma {:induction false} NormFieldsAt(cmp: Comparator, fields: seq<Field>)
    ensures |NormFields(cmp, fields)| == |fields|
    ensures forall i :: 0 <= i < |fields| ==> NormFields(cmp, fields)[i] == NormField(cmp, fields[i])
  {
    if fields != [] {
      NormFieldsAt(cmp, fields[1..]);
    }
  }

  /** Sorting looks at keys only, so it commutes with normalising the values. */
  lemma {:induction false} InsertCommutes(cmp: Comparator, f: Field, s: seq<Field>)
    ensures NormFields(cmp, Insert(cmp, f, s)) == Insert(cmp, NormField(cmp, f), NormFields(cmp, s))
  {
    if s == [] || cmp(f.key, s[0].key) <= 0 {
      assert ([f] + s)[1..] == s;
    } else {
      InsertCommutes(cmp, f, s[1..]);
      assert Insert(cmp, f, s)[1..] == Insert(cmp, f, s[1..]);
      assert NormFields(cmp, s)[1..] == NormFields(cmp, s[1..]);
    }
  }

  lemma {:induction false} SortCommutes(cmp: Comparator, fields: seq<Field>)
    ensures NormFields(cmp, Sort(cmp, fields)) == Sort(cmp, NormFields(cmp, fields))
  {
    if fields != [] {
      SortCommutes(cmp, fields[1..]);
      InsertCommutes(cmp, fields[0], Sort(cmp, fields[1..]));
      assert NormFields(cmp, fields)[1..] == NormFields(cmp, fields[1..]);
    }
  }

  /** The canonical text is the ordinary text of the normal form. */
  lemma {:induction false} CanonicalPrintsNorm(cmp: Comparator, j: Json)
    ensures Canonical(cmp, j) == Print(Norm(cmp, j))
    decreases j, 1
  {
    match j
    case Arr(items) => ItemsPrintNorm(cmp, items);
    case Obj(fields) =>
      SortKeepsMembers(cmp, fields);
      FieldsPrintNorm(cmp, j, Sort(cmp, fields));
      SortCommutes(cmp, fields);
    case _ =>
  }

  lemma {:induction false} ItemsPrintNorm(cmp: Comparator, items: seq<Json>)
    ensures CanonicalItems(cmp, items) == PrintItems(NormItems(cmp, items))
    decreases items, 0
  {
    if items != [] {
      CanonicalPrintsNorm(cmp, items[0]);
      ItemsPrintNorm(cmp, items[1..]);
      assert NormItems(cmp, items)[1..] == NormItems(cmp, items[1..]);
      assert |items| > 1 ==> NormItems(cmp, items[1..]) != [];
    }
  }

  lemma {:induction false} FieldsPrintNorm(cmp: Comparator, whole: Json, fields: seq<Field>)
    requires whole.Obj? && multiset(fields) <= multiset(whole.fields)
    ensures CanonicalFields(cmp, whole, fields) == PrintFields(NormFields(cmp, fields))
    decreases whole, 0, |fields|
  {
    if fields != [] {
      assert fields[0] in multiset(fields);
      assert fields[0] in whole.fields;
      assert fields == [fields[0]] + fields[1..];
      CanonicalPrintsNorm(cmp, fields[0].value);
      FieldsPrintNorm(cmp, whole, fields[1..]);
      assert NormFields(cmp, fields)[1..] == NormFields(cmp, fields[1..]);
      assert |fields| > 1 ==> NormFields(cmp, fields[1..]) != [];
    }
  }

  // ----- Meaning -----

  datatype Value =
    | NullValue
    | BoolValue(truth: bool)
    | NumValue(number: string)
    | StrValue(text: string)
    | ArrValue(items: seq<Value>)
    | ObjValue(fields: map<string, Value>)

  function Meaning(j: Json): Value
    decreases j, 1
  {
    match j
    case Null => NullValue
    case Bool(truth) => BoolValue(truth)
    case Num(number) => NumValue(number)
    case Str(text) => StrValue(text)
    case Arr(items) => ArrValue(ItemMeanings(items))
    case Obj(fields) => ObjValue(FieldMeanings(fields))
  }

  function ItemMeanings(items: seq<Json>): seq<Value>
    decreases items, 0
  {
    if items == [] then [] else [Meaning(items[0])] + ItemMeanings(items[1..])
  }

  function FieldMeanings(fields: seq<Field>): map<string, Value>
    decreases fields, 0
  {
    if fields == [] then map[] else FieldMeanings(fields[1..])[fields[0].key := Meaning(fields[0].value)]
  }

  /** The keys of an object are distinct, as a JavaScript object's are. */
  predicate DistinctKeys(fields: seq<Field>) {
    forall i, j :: 0 <= i < j < |fields| ==> fields[i].key != fields[j].key
  }

  /** No two keys of an object tie under the comparator. */
  predicate NoTies(cmp: Comparator, fields: seq<Field>) {
    forall i, j :: 0 <= i < j < |fields| ==> cmp(fields[i].key, fields[j].key) != 0
  }

  /** `p` holds of the field list of every object inside the value. */
  predicate Throughout(p: seq<Field> -> bool, j: Json)
    decreases j
  {
    match j
    case Arr(items) => forall i :: 0 <= i < |items| ==> Throughout(p, items[i])
    case Obj(fields) => p(fields) && forall i :: 0 <= i < |fields| ==> Throughout(p, fields[i].value)
    case _ => true
  }

  predicate WellFormed(j: Json) {
    Throughout(DistinctKeys, j)
  }

  function TieFree(cmp: Comparator): seq<Field> -> bool {
    fields => NoTies(cmp, fields)
  }

  predicate Strict(cmp: Comparator, j: Json) {
    Throughout(TieFree(cmp), j)
  }

  lemma {:induction false} FieldMeaningsAt(fields: seq<Field>)
    requires DistinctKeys(fields)
    ensures forall k :: k in FieldMeanings(fields) <==> exists i :: 0 <= i < |fields| && fields[i].key == k
    ensures forall i :: 0 <= i < |fields| ==>
      fields[i].key in FieldMeanings(fields) && FieldMeanings(fields)[fields[i].key] == Meaning(fields[i].value)
  {
    if fields != [] {
      var rest := fields[1..];
      FieldMeaningsAt(rest);
      forall k | k in FieldMeanings(fields) ensures exists i :: 0 <= i < |fields| && fields[i].key == k {
        if k != fields[0].key {
          var i :| 0 <= i < |rest| && rest[i].key == k;
          assert fields[i + 1].key == k;
        }
      }
      forall i | 0 <= i < |fields|
        ensures fields[i].key in FieldMeanings(fields)
          && FieldMeanings(fields)[fields[i].key] == Meaning(fields[i].value)
      {
        if i > 0 {
          assert rest[i - 1] == fields[i];
        }
      }
    }
  }

  lemma {:induction false} ItemMeaningsAt(items: seq<Json>)
    ensures |ItemMeanings(items)| == |items|
    ensures forall i :: 0 <= i < |items| ==> ItemMeanings(items)[i] == Meaning(items[i])
  {
    if items != [] {
      ItemMeaningsAt(items[1..]);
    }
  }

  lemma {:induction false} NormItemsAt(cmp: Comparator, items: seq<Json>)
    ensures |NormItems(cmp, items)| == |items|
    ensures forall i :: 0 <= i < |items| ==> NormItems(cmp, items)[i] == Norm(cmp, items[i])
  {
    if items != [] {
      NormItemsAt(cmp, items[1..]);
    }
  }

  // ----- Equal texts mean equal values -----

  lemma {:induction false} SortKeepsDistinct(cmp: Comparator, fields: seq<Field>)
    requires DistinctKeys(fields)
    ensures DistinctKeys(Sort(cmp, fields))
  {
    if fields != [] {
      var rest := Sort(cmp, fields[1..]);
      SortKeepsDistinct(cmp, fields[1..]);
      forall i | 0 <= i < |rest| ensures rest[i].key != fields[0].key {
        SortMember(cmp, fields[1..], rest[i]);
        var j :| 0 <= j < |fields[1..]| && fields[1..][j] == rest[i];
        assert fields[j + 1] == rest[i];
      }
      InsertKeepsDistinct(cmp, fields[0], rest);
    }
  }

  lemma {:induction false} InsertKeepsDistinct(cmp: Comparator, f: Field, s: seq<Field>)
    requires DistinctKeys(s) && forall i :: 0 <= i < |s| ==> s[i].key != f.key
    ensures DistinctKeys(Insert(cmp, f, s))
  {
    if s != [] && cmp(f.key, s[0].key) > 0 {
      var rest := Insert(cmp, f, s[1..]);
      InsertKeepsDistinct(cmp, f, s[1..]);
      InsertKeepsMembers(cmp, f, s[1..]);
      forall i | 0 <= i < |rest| ensures rest[i].key != s[0].key {
        assert rest[i] in multiset(rest);
        assert rest[i] == f || rest[i] in multiset(s[1..]);
      }
    }
  }

  /** Two objects with distinct keys and the same fields in any order mean the same. */
  lemma SameFieldsSameMeaning(a: seq<Field>, b: seq<Field>)
    requires DistinctKeys(a) && DistinctKeys(b)
    requires forall f :: f in a <==> f in b
    ensures FieldMeanings(a) == FieldMeanings(b)
  {
    FieldMeaningsAt(a);
    FieldMeaningsAt(b);
    forall i | 0 <= i < |a|
      ensures a[i].key in FieldMeanings(b) && FieldMeanings(b)[a[i].key] == FieldMeanings(a)[a[i].key]
    {
      assert a[i] in b;
    }
    forall i | 0 <= i < |b| ensures b[i].key in FieldMeanings(a) {
      assert b[i] in a;
    }
  }

  /** Sorting keys at every depth does not change what a value means. */
  lemma {:induction false} NormKeepsMeaning(cmp: Comparator, j: Json)
    requires WellFormed(j)
    ensures Meaning(Norm(cmp, j)) == Meaning(j)
  {
    match j
    case Arr(items) =>
      NormItemsAt(cmp, items);
      ItemMeaningsAt(items);
      ItemMeaningsAt(NormItems(cmp, items));
      forall i | 0 <= i < |items| ensures Meaning(NormItems(cmp, items)[i]) == Meaning(items[i]) {
        NormKeepsMeaning(cmp, items[i]);
      }
    case Obj(fields) =>
      var normed := NormFields(cmp, fields);
      NormFieldsAt(cmp, fields);
      forall i | 0 <= i < |fields| ensures Meaning(normed[i].value) == Meaning(fields[i].value) {
        NormKeepsMeaning(cmp, fields[i].value);
      }
      SameFieldMeanings(normed, fields);
      SortKeepsMeaning(cmp, normed);
    case _ =>
  }

  /** Fields with the same keys and equal meanings make the same map. */
  lemma {:induction false} SameFieldMeanings(a: seq<Field>, b: seq<Field>)
    requires |a| == |b|
    requires forall i :: 0 <= i < |a| ==> a[i].key == b[i].key && Meaning(a[i].value) == Meaning(b[i].value)
    ensures FieldMeanings(a) == FieldMeanings(b)
    ensures DistinctKeys(b) ==> DistinctKeys(a)
  {
    if a != [] {
      SameFieldMeanings(a[1..], b[1..]);
    }
  }

  lemma SortKeepsMeaning(cmp: Comparator, fields: seq<Field>)
    requires DistinctKeys(fields)
    ensures FieldMeanings(Sort(cmp, fields)) == FieldMeanings(fields)
  {
    SortKeepsDistinct(cmp, fields);
    forall f ensures f in Sort(cmp, fields) <==> f in fields {
      SortMember(cmp, fields, f);
    }
    SameFieldsSameMeaning(Sort(cmp, fields), fields);
  }

  // ----- Equal values have equal texts -----

  predicate StrictlySorted(cmp: Comparator, s: seq<Field>) {
    forall i, j :: 0 <= i < j < |s| ==> cmp(s[i].key, s[j].key) < 0
  }

  lemma BeforeAll(cmp: Comparator, f: Field, s: seq<Field>)
    requires Consistent(cmp) && StrictlySorted(cmp, s) && s != []
    requires cmp(f.key, s[0].key) <= 0 && forall i :: 0 <= i < |s| ==> cmp(f.key, s[i].key) != 0
    ensures StrictlySorted(cmp, [f] + s)
  {
    forall i | 0 <= i < |s| ensures cmp(f.key, s[i].key) < 0 {
      if i > 0 {
        assert cmp(s[0].key, s[i].key) < 0;
        assert cmp(f.key, s[i].key) <= 0;
      }
    }
  }

  lemma AfterFirst(cmp: Comparator, f: Field, s: seq<Field>, rest: seq<Field>)
    requires Consistent(cmp) && StrictlySorted(cmp, s) && s != [] && StrictlySorted(cmp, rest)
    requires cmp(f.key, s[0].key) > 0 && forall i :: 0 <= i < |rest| ==> rest[i] == f || rest[i] in s[1..]
    ensures StrictlySorted(cmp, [s[0]] + rest)
  {
    forall i | 0 <= i < |rest| ensures cmp(s[0].key, rest[i].key) < 0 {
      if rest[i] != f {
        var k :| 0 <= k < |s[1..]| && s[1..][k] == rest[i];
        assert cmp(s[0].key, s[k + 1].key) < 0;
      }
    }
  }

  lemma InsertedMember(cmp: Comparator, f: Field, s: seq<Field>, i: nat)
    requires i < |Insert(cmp, f, s)|
    ensures Insert(cmp, f, s)[i] == f || Insert(cmp, f, s)[i] in s
  {
    InsertKeepsMembers(cmp, f, s);
    assert Insert(cmp, f, s)[i] in multiset(Insert(cmp, f, s));
  }

  lemma {:induction false} InsertSorts(cmp: Comparator, f: Field, s: seq<Field>)
    requires Consistent(cmp) && StrictlySorted(cmp, s)
    requires forall i :: 0 <= i < |s| ==> cmp(f.key, s[i].key) != 0
    ensures StrictlySorted(cmp, Insert(cmp, f, s))
  {
    if s == [] {
    } else if cmp(f.key, s[0].key) <= 0 {
      BeforeAll(cmp, f, s);
    } else {
      var tail := s[1..];
      assert StrictlySorted(cmp, tail) && forall i :: 0 <= i < |tail| ==> tail[i] == s[i + 1];
      InsertSorts(cmp, f, tail);
      var rest := Insert(cmp, f, tail);
      forall i | 0 <= i < |rest| ensures rest[i] == f || rest[i] in tail {
        InsertedMember(cmp, f, tail, i);
      }
      AfterFirst(cmp, f, s, rest);
    }
  }

  lemma {:induction false} SortSorts(cmp: Comparator, fields: seq<Field>)
    requires Consistent(cmp) && NoTies(cmp, fields)
    ensures StrictlySorted(cmp, Sort(cmp, fields))
  {
    if fields != [] {
      var rest := Sort(cmp, fields[1..]);
      SortSorts(cmp, fields[1..]);
      forall i | 0 <= i < |rest| ensures cmp(fields[0].key, rest[i].key) != 0 {
        SortMember(cmp, fields[1..], rest[i]);
        var j :| 0 <= j < |fields[1..]| && fields[1..][j] == rest[i];
        assert fields[j + 1] == rest[i];
      }
      InsertSorts(cmp, fields[0], rest);
    }
  }

  /** A strictly sorted sequence is determined by its members. */
  lemma {:induction false} SortedUnique(cmp: Comparator, s: seq<Field>, t: seq<Field>)
    requires Consistent(cmp) && StrictlySorted(cmp, s) && StrictlySorted(cmp, t)
    requires forall f :: f in s <==> f in t
    ensures s == t
    decreases |s|
  {
    assert |t| > 0 ==> t[0] in t;
    assert |s| > 0 ==> s[0] in s;
    if s != [] {
      assert t[0] in s && s[0] in t;
      assert s[0] == t[0];
      forall f ensures f in s[1..] <==> f in t[1..] {
        assert f in s <==> f == s[0] || f in s[1..];
        assert f in t <==> f == t[0] || f in t[1..];
        if f == s[0] {
          assert !(cmp(f.key, f.key) < 0);
        }
      }
      SortedUnique(cmp, s[1..], t[1..]);
    }
  }

  lemma NormFieldsStrict(cmp: Comparator, fields: seq<Field>)
    requires NoTies(cmp, fields)
    ensures NoTies(cmp, NormFields(cmp, fields))
  {
    NormFieldsAt(cmp, fields);
  }

  /** Every normalised field of `a` is one of `b`, when their maps agree. */
  lemma NormFieldsInclude(cmp: Comparator, a: seq<Field>, b: seq<Field>)
    requires DistinctKeys(a) && DistinctKeys(b) && FieldMeanings(a) == FieldMeanings(b)
    requires forall i, j :: 0 <= i < |a| && 0 <= j < |b| && Meaning(a[i].value) == Meaning(b[j].value) ==>
      Norm(cmp, a[i].value) == Norm(cmp, b[j].value)
    ensures forall f :: f in NormFields(cmp, a) ==> f in NormFields(cmp, b)
  {
    NormFieldsAt(cmp, a);
    NormFieldsAt(cmp, b);
    FieldMeaningsAt(a);
    FieldMeaningsAt(b);
    forall f | f in NormFields(cmp, a) ensures f in NormFields(cmp, b) {
      var i :| 0 <= i < |a| && f == NormField(cmp, a[i]);
      assert a[i].key in FieldMeanings(b);
      var j :| 0 <= j < |b| && b[j].key == a[i].key;
      assert Meaning(a[i].value) == Meaning(b[j].value);
      assert NormFields(cmp, b)[j] == f;
    }
  }

  /** Values that mean the same have the same normal form, if no two of an object's keys tie. */
  lemma {:induction false} NormUnique(cmp: Comparator, a: Json, b: Json)
    requires Consistent(cmp) && WellFormed(a) && WellFormed(b) && Strict(cmp, a) && Strict(cmp, b)
    requires Meaning(a) == Meaning(b)
    ensures Norm(cmp, a) == Norm(cmp, b)
  {
    match a
    case Arr(items) =>
      NormItemsAt(cmp, items);
      NormItemsAt(cmp, b.items);
      ItemMeaningsAt(items);
      ItemMeaningsAt(b.items);
      forall i | 0 <= i < |items| ensures Norm(cmp, items[i]) == Norm(cmp, b.items[i]) {
        assert Meaning(items[i]) == ItemMeanings(items)[i] == ItemMeanings(b.items)[i] == Meaning(b.items[i]);
        NormUnique(cmp, items[i], b.items[i]);
      }
    case Obj(fields) =>
      assert TieFree(cmp)(fields) && TieFree(cmp)(b.fields);
      forall i, j | 0 <= i < |fields| && 0 <= j < |b.fields| && Meaning(fields[i].value) == Meaning(b.fields[j].value)
        ensures Norm(cmp, fields[i].value) == Norm(cmp, b.fields[j].value)
      {
        NormUnique(cmp, fields[i].value, b.fields[j].value);
      }
      NormFieldsInclude(cmp, fields, b.fields);
      NormFieldsInclude(cmp, b.fields, fields);
      var s, t := NormFields(cmp, fields), NormFields(cmp, b.fields);
      NormFieldsStrict(cmp, fields);
      NormFieldsStrict(cmp, b.fields);
      SortSorts(cmp, s);
      SortSorts(cmp, t);
      forall f ensures f in Sort(cmp, s) <==> f in Sort(cmp, t) {
        SortMember(cmp, s, f);
        SortMember(cmp, t, f);
      }
      SortedUnique(cmp, Sort(cmp, s), Sort(cmp, t));
    case _ =>
  }

  // ----- What replay checks rely on -----

  lemma SameTextSameNorm(cmp: Comparator, a: Json, b: Json)
    requires Canonical(cmp, a) == Canonical(cmp, b)
    ensures Norm(cmp, a) == Norm(cmp, b)
  {
    CanonicalPrintsNorm(cmp, a);
    CanonicalPrintsNorm(cmp, b);
    assert Print(Norm(cmp, a)) + "" == Print(Norm(cmp, b)) + "";
    PrintUnique(Norm(cmp, a), Norm(cmp, b), "", "");
  }

  /** Canonical texts tell values apart: equal texts always mean equal values. */
  lemma CanonicalIsInjective(cmp: Comparator, a: Json, b: Json)
    requires WellFormed(a) && WellFormed(b) && Canonical(cmp, a) == Canonical(cmp, b)
    ensures Meaning(a) == Meaning(b)
  {
    SameTextSameNorm(cmp, a, b);
    NormKeepsMeaning(cmp, a);
    NormKeepsMeaning(cmp, b);
  }

  /**
   * Two payloads have the same canonical text exactly when they mean the same, that is when they
   * differ at most in the order of object keys, at any depth.
   */
  lemma CanonicalDecidesMeaning(cmp: Comparator, a: Json, b: Json)
    requires Consistent(cmp) && WellFormed(a) && WellFormed(b) && Strict(cmp, a) && Strict(cmp, b)
    ensures Canonical(cmp, a) == Canonical(cmp, b) <==> Meaning(a) == Meaning(b)
  {
    if Meaning(a) == Meaning(b) {
      NormUnique(cmp, a, b);
      CanonicalPrintsNorm(cmp, a);
      CanonicalPrintsNorm(cmp, b);
    }
    if Canonical(cmp, a) == Canonical(cmp, b) {
      CanonicalIsInjective(cmp, a, b);
    }
  }

  // ----- Exactly when key order does not matter -----

  /** The canonical text of an object is the same for every order of its fields. */
  ghost predicate OrderIndependent(cmp: Comparator, fields: seq<Field>) {
    forall other: seq<Field> :: multiset(other) == multiset(fields) ==>
      Canonical(cmp, Obj(other)) == Canonical(cmp, Obj(fields))
  }

  /** A field equal to `f` in the comparator is inserted at the same place, just before it. */
  lemma {:induction false} InsertTied(cmp: Comparator, f: Field, g: Field, s: seq<Field>)
    requires Consistent(cmp) && cmp(f.key, g.key) == 0 && f != g
    ensures Insert(cmp, f, Insert(cmp, g, s)) != Insert(cmp, g, Insert(cmp, f, s))
  {
    assert !(cmp(g.key, f.key) < 0) && !(cmp(g.key, f.key) > 0);
    if s == [] || cmp(f.key, s[0].key) <= 0 {
      assert s != [] ==> cmp(g.key, f.key) <= 0 && cmp(g.key, s[0].key) <= 0;
      assert Insert(cmp, f, Insert(cmp, g, s))[0] == f && Insert(cmp, g, Insert(cmp, f, s))[0] == g;
    } else {
      assert cmp(g.key, s[0].key) > 0 by {
        assert cmp(f.key, g.key) <= 0;
      }
      InsertTied(cmp, f, g, s[1..]);
      assert Insert(cmp, f, Insert(cmp, g, s))[1..] == Insert(cmp, f, Insert(cmp, g, s[1..]));
      assert Insert(cmp, g, Insert(cmp, f, s))[1..] == Insert(cmp, g, Insert(cmp, f, s[1..]));
    }
  }

  lemma TwoInFront(cmp: Comparator, f: Field, g: Field, rest: seq<Field>)
    ensures NormFields(cmp, [f, g] + rest) == [NormField(cmp, f), NormField(cmp, g)] + NormFields(cmp, rest)
    ensures Sort(cmp, [f, g] + rest) == Insert(cmp, f, Insert(cmp, g, Sort(cmp, rest)))
  {
    var a := [f, g] + rest;
    assert a[1..] == [g] + rest && ([g] + rest)[1..] == rest;
  }

  lemma TiedNormsDiffer(cmp: Comparator, f: Field, g: Field, rest: seq<Field>)
    requires Consistent(cmp) && cmp(f.key, g.key) == 0 && f.key != g.key
    ensures Sort(cmp, NormFields(cmp, [f, g] + rest)) != Sort(cmp, NormFields(cmp, [g, f] + rest))
  {
    var f', g', rest' := NormField(cmp, f), NormField(cmp, g), NormFields(cmp, rest);
    TwoInFront(cmp, f, g, rest);
    TwoInFront(cmp, g, f, rest);
    TwoInFront(cmp, f', g', rest');
    TwoInFront(cmp, g', f', rest');
    InsertTied(cmp, f', g', Sort(cmp, rest'));
  }

  /** Putting two tied fields in front, in either order, gives two texts. */
  lemma TieBreaksOrder(cmp: Comparator, f: Field, g: Field, rest: seq<Field>)
    requires Consistent(cmp) && cmp(f.key, g.key) == 0 && f.key != g.key
    ensures Canonical(cmp, Obj([f, g] + rest)) != Canonical(cmp, Obj([g, f] + rest))
  {
    TiedNormsDiffer(cmp, f, g, rest);
    if Canonical(cmp, Obj([f, g] + rest)) == Canonical(cmp, Obj([g, f] + rest)) {
      SameTextSameNorm(cmp, Obj([f, g] + rest), Obj([g, f] + rest));
    }
  }

  /** A field list without ties has no repeated field either. */
  lemma {:induction false} NoTiesOnce(cmp: Comparator, fields: seq<Field>, f: Field)
    requires Consistent(cmp) && NoTies(cmp, fields)
    ensures multiset(fields)[f] <= 1
  {
    if fields != [] {
      NoTiesOnce(cmp, fields[1..], f);
      assert fields == [fields[0]] + fields[1..];
      forall k | 1 <= k < |fields| ensures fields[k] != fields[0] {
        assert cmp(fields[0].key, fields[k].key) != 0;
        assert cmp(fields[0].key, fields[0].key) == 0;
      }
      assert fields[0] !in fields[1..];
    }
  }

  lemma Repeated(t: seq<Field>, i: nat, j: nat)
    requires i < j < |t| && t[i] == t[j]
    ensures multiset(t)[t[i]] >= 2
  {
    assert t == t[..j] + t[j..];
    assert t[..j][i] == t[i] && t[j..][0] == t[i];
    assert t[i] in multiset(t[..j]) && t[i] in multiset(t[j..]);
  }

  lemma ReorderedHasNoTies(cmp: Comparator, fields: seq<Field>, other: seq<Field>)
    requires Consistent(cmp) && NoTies(cmp, fields) && multiset(other) == multiset(fields)
    ensures NoTies(cmp, other)
  {
    forall i, j | 0 <= i < j < |other| ensures cmp(other[i].key, other[j].key) != 0 {
      NoTiesOnce(cmp, fields, other[i]);
      if other[i] == other[j] {
        Repeated(other, i, j);
        assert false;
      }
      assert other[i] in multiset(other) && other[j] in multiset(other);
      var p :| 0 <= p < |fields| && fields[p] == other[i];
      var q :| 0 <= q < |fields| && fields[q] == other[j];
      assert p < q ==> cmp(fields[p].key, fields[q].key) != 0;
      assert q < p ==> cmp(fields[q].key, fields[p].key) != 0;
    }
  }

  lemma ReorderedSortsAlike(cmp: Comparator, fields: seq<Field>, other: seq<Field>)
    requires Consistent(cmp) && NoTies(cmp, fields) && multiset(other) == multiset(fields)
    ensures Sort(cmp, other) == Sort(cmp, fields)
  {
    ReorderedHasNoTies(cmp, fields, other);
    SortSorts(cmp, fields);
    SortSorts(cmp, other);
    forall f ensures f in Sort(cmp, other) <==> f in Sort(cmp, fields) {
      SortMember(cmp, fields, f);
      SortMember(cmp, other, f);
      assert f in other <==> f in multiset(other);
      assert f in fields <==> f in multiset(fields);
    }
    SortedUnique(cmp, Sort(cmp, other), Sort(cmp, fields));
  }

  lemma ReorderedPrintsAlike(cmp: Comparator, fields: seq<Field>, other: seq<Field>)
    requires Consistent(cmp) && NoTies(cmp, fields) && multiset(other) == multiset(fields)
    ensures Canonical(cmp, Obj(other)) == Canonical(cmp, Obj(fields))
  {
    ReorderedSortsAlike(cmp, fields, other);
    SortCommutes(cmp, fields);
    SortCommutes(cmp, other);
    CanonicalPrintsNorm(cmp, Obj(fields));
    CanonicalPrintsNorm(cmp, Obj(other));
  }

  lemma MovedToFront(fields: seq<Field>, i: nat, j: nat)
    requires i < j < |fields|
    ensures multiset([fields[i], fields[j]] + (fields[..i] + fields[i + 1..j] + fields[j + 1..])) == multiset(fields)
    ensures multiset([fields[j], fields[i]] + (fields[..i] + fields[i + 1..j] + fields[j + 1..])) == multiset(fields)
  {
    var before, between, behind := fields[..i], fields[i + 1..j], fields[j + 1..];
    assert fields == before + [fields[i]] + between + [fields[j]] + behind;
    assert multiset(fields) ==
      multiset(before) + multiset{fields[i]} + multiset(between) + multiset{fields[j]} + multiset(behind);
  }

  lemma IndependentAt(cmp: Comparator, fields: seq<Field>, other: seq<Field>)
    requires OrderIndependent(cmp, fields) && multiset(other) == multiset(fields)
    ensures Canonical(cmp, Obj(other)) == Canonical(cmp, Obj(fields))
  {
  }

  /** A list with a tie has a reordering with another text. */
  lemma TiedDependsOnOrder(cmp: Comparator, fields: seq<Field>, i: nat, j: nat)
    requires Consistent(cmp) && DistinctKeys(fields)
    requires i < j < |fields| && cmp(fields[i].key, fields[j].key) == 0
    ensures !OrderIndependent(cmp, fields)
  {
    var f, g := fields[i], fields[j];
    var rest := fields[..i] + fields[i + 1..j] + fields[j + 1..];
    MovedToFront(fields, i, j);
    if OrderIndependent(cmp, fields) {
      IndependentAt(cmp, fields, [f, g] + rest);
      IndependentAt(cmp, fields, [g, f] + rest);
      TieBreaksOrder(cmp, f, g, rest);
    }
  }

  /**
   * Key order does not matter for an object exactly when the comparator tells all its keys apart.
   * With a comparator that ties two distinct keys, some reordering changes the text, and with it the hash.
   */
  lemma OrderIndependentIffNoTies(cmp: Comparator, fields: seq<Field>)
    requires Consistent(cmp) && DistinctKeys(fields)
    ensures OrderIndependent(cmp, fields) <==> NoTies(cmp, fields)
  {
    if NoTies(cmp, fields) {
      forall other: seq<Field> | multiset(other) == multiset(fields)
        ensures Canonical(cmp, Obj(other)) == Canonical(cmp, Obj(fields))
      {
        ReorderedPrintsAlike(cmp, fields, other);
      }
    } else {
      var i, j :| 0 <= i < j < |fields| && cmp(fields[i].key, fields[j].key) == 0;
      TiedDependsOnOrder(cmp, fields, i, j);
    }
  }
}
