/** Exactly which payloads have one canonical text however their keys are ordered, at every depth. */
module CanonicalStability {
  import opened Json
  import opened C = Canonical

  /** Every value of the same meaning has the same canonical text. */
  ghost predicate Stable(cmp: Comparator, j: Json) {
    forall k: Json :: WellFormed(k) && Meaning(k) == Meaning(j) ==> C.Canonical(cmp, k) == C.Canonical(cmp, j)
  }

  // ----- Values of one meaning are strict together -----

  /** The field of one object that goes with a field of the other. */
  lemma PartnerOf(a: seq<Field>, b: seq<Field>, i: nat) returns (p: nat)
    requires DistinctKeys(a) && DistinctKeys(b) && FieldMeanings(a) == FieldMeanings(b) && i < |b|
    ensures p < |a| && a[p].key == b[i].key && Meaning(a[p].value) == Meaning(b[i].value)
  {
    FieldMeaningsAt(a);
    FieldMeaningsAt(b);
    assert b[i].key in FieldMeanings(a);
    p :| 0 <= p < |a| && a[p].key == b[i].key;
  }

  lemma SameMeaningNoTies(cmp: Comparator, a: seq<Field>, b: seq<Field>)
    requires Consistent(cmp) && DistinctKeys(a) && DistinctKeys(b) && FieldMeanings(a) == FieldMeanings(b)
    requires NoTies(cmp, a)
    ensures NoTies(cmp, b)
  {
    forall i, j | 0 <= i < j < |b| ensures cmp(b[i].key, b[j].key) != 0 {
      var p := PartnerOf(a, b, i);
      var q := PartnerOf(a, b, j);
      assert p != q;
      if q < p {
        assert cmp(a[q].key, a[p].key) != 0;
      }
    }
  }

  lemma {:induction false} SameMeaningStrict(cmp: Comparator, a: Json, b: Json)
    requires Consistent(cmp) && WellFormed(a) && WellFormed(b) && Meaning(a) == Meaning(b) && Strict(cmp, a)
    ensures Strict(cmp, b)
    decreases b
  {
    match b
    case Arr(items) =>
      ItemMeaningsAt(a.items);
      ItemMeaningsAt(items);
      forall i | 0 <= i < |items| ensures Throughout(TieFree(cmp), items[i]) {
        SameMeaningStrict(cmp, a.items[i], items[i]);
      }
    case Obj(fields) =>
      SameMeaningNoTies(cmp, a.fields, fields);
      forall i | 0 <= i < |fields| ensures Throughout(TieFree(cmp), fields[i].value) {
        var p := PartnerOf(a.fields, fields, i);
        SameMeaningStrict(cmp, a.fields[p].value, fields[i].value);
      }
    case _ =>
  }

  // ----- A value that is not strict has a twin -----

  lemma {:induction false} DistinctOnce(fields: seq<Field>, f: Field)
    requires DistinctKeys(fields)
    ensures multiset(fields)[f] <= 1
  {
    if fields != [] {
      assert fields == [fields[0]] + fields[1..];
      DistinctOnce(fields[1..], f);
    }
  }

  lemma ReorderedIsDistinct(fields: seq<Field>, other: seq<Field>)
    requires DistinctKeys(fields) && multiset(other) == multiset(fields)
    ensures DistinctKeys(other)
  {
    forall i, j | 0 <= i < j < |other| ensures other[i].key != other[j].key {
      assert other[i] in multiset(fields) && other[j] in multiset(fields);
      if other[i] == other[j] {
        Repeated(other, i, j);
        DistinctOnce(fields, other[i]);
      }
    }
  }

  lemma ReorderedMeansTheSame(fields: seq<Field>, other: seq<Field>)
    requires WellFormed(Obj(fields)) && multiset(other) == multiset(fields)
    ensures WellFormed(Obj(other)) && Meaning(Obj(other)) == Meaning(Obj(fields))
  {
    ReorderedIsDistinct(fields, other);
    forall f ensures f in other <==> f in fields {
      assert f in multiset(other) <==> f in multiset(fields);
    }
    SameFieldsSameMeaning(other, fields);
    forall i | 0 <= i < |other| ensures Throughout(DistinctKeys, other[i].value) {
      assert other[i] in fields;
    }
  }

  lemma ObjectTwin(cmp: Comparator, fields: seq<Field>) returns (k: Json)
    requires Consistent(cmp) && WellFormed(Obj(fields)) && !NoTies(cmp, fields)
    ensures WellFormed(k) && Meaning(k) == Meaning(Obj(fields)) && C.Canonical(cmp, k) != C.Canonical(cmp, Obj(fields))
  {
    OrderIndependentIffNoTies(cmp, fields);
    var other: seq<Field> :| multiset(other) == multiset(fields)
      && C.Canonical(cmp, Obj(other)) != C.Canonical(cmp, Obj(fields));
    ReorderedMeansTheSame(fields, other);
    k := Obj(other);
  }

  lemma ItemMatters(cmp: Comparator, items: seq<Json>, i: nat, k: Json)
    requires i < |items| && C.Canonical(cmp, k) != C.Canonical(cmp, items[i])
    ensures C.Canonical(cmp, Arr(items[i := k])) != C.Canonical(cmp, Arr(items))
  {
    if C.Canonical(cmp, Arr(items[i := k])) == C.Canonical(cmp, Arr(items)) {
      SameTextSameNorm(cmp, Arr(items[i := k]), Arr(items));
      NormItemsAt(cmp, items);
      NormItemsAt(cmp, items[i := k]);
      CanonicalPrintsNorm(cmp, k);
      CanonicalPrintsNorm(cmp, items[i]);
    }
  }

  lemma FieldMatters(cmp: Comparator, fields: seq<Field>, i: nat, k: Json)
    requires DistinctKeys(fields) && i < |fields| && C.Canonical(cmp, k) != C.Canonical(cmp, fields[i].value)
    ensures C.Canonical(cmp, Obj(fields[i := Field(fields[i].key, k)])) != C.Canonical(cmp, Obj(fields))
  {
    var other := fields[i := Field(fields[i].key, k)];
    if C.Canonical(cmp, Obj(other)) == C.Canonical(cmp, Obj(fields)) {
      SameTextSameNorm(cmp, Obj(other), Obj(fields));
      NormFieldsAt(cmp, fields);
      NormFieldsAt(cmp, other);
      SortMember(cmp, NormFields(cmp, fields), NormFields(cmp, other)[i]);
      SortMember(cmp, NormFields(cmp, other), NormFields(cmp, other)[i]);
      var m :| 0 <= m < |fields| && NormFields(cmp, fields)[m] == NormFields(cmp, other)[i];
      assert NormField(cmp, fields[m]) == NormField(cmp, other[i]);
      CanonicalPrintsNorm(cmp, k);
      CanonicalPrintsNorm(cmp, fields[i].value);
    }
  }

  /** Another value that means the same, and whose canonical text differs. */
  ghost predicate IsTwin(cmp: Comparator, j: Json, k: Json) {
    WellFormed(k) && Meaning(k) == Meaning(j) && C.Canonical(cmp, k) != C.Canonical(cmp, j)
  }

  lemma ItemTwin(cmp: Comparator, items: seq<Json>, i: nat, twin: Json)
    requires WellFormed(Arr(items)) && i < |items| && IsTwin(cmp, items[i], twin)
    ensures IsTwin(cmp, Arr(items), Arr(items[i := twin]))
  {
    hide C.Canonical;
    ItemMatters(cmp, items, i, twin);
    ItemMeaningsAt(items);
    ItemMeaningsAt(items[i := twin]);
    assert ItemMeanings(items[i := twin]) == ItemMeanings(items);
  }

  lemma FieldTwin(cmp: Comparator, fields: seq<Field>, i: nat, twin: Json)
    requires WellFormed(Obj(fields)) && i < |fields| && IsTwin(cmp, fields[i].value, twin)
    ensures IsTwin(cmp, Obj(fields), Obj(fields[i := Field(fields[i].key, twin)]))
  {
    hide C.Canonical;
    FieldMatters(cmp, fields, i, twin);
    SameFieldMeanings(fields[i := Field(fields[i].key, twin)], fields);
  }

  lemma {:induction false} Twin(cmp: Comparator, j: Json) returns (k: Json)
    requires Consistent(cmp) && WellFormed(j) && !Strict(cmp, j)
    ensures IsTwin(cmp, j, k)
    decreases j
  {
    match j
    case Arr(items) =>
      var i :| 0 <= i < |items| && !Throughout(TieFree(cmp), items[i]);
      var twin := Twin(cmp, items[i]);
      k := Arr(items[i := twin]);
      ItemTwin(cmp, items, i, twin);
    case Obj(fields) =>
      if !NoTies(cmp, fields) {
        k := ObjectTwin(cmp, fields);
      } else {
        var i :| 0 <= i < |fields| && !Throughout(TieFree(cmp), fields[i].value);
        var twin := Twin(cmp, fields[i].value);
        k := Obj(fields[i := Field(fields[i].key, twin)]);
        FieldTwin(cmp, fields, i, twin);
      }
    case _ =>
      k := j;
  }

  /**
   * The text of a payload depends on its meaning alone exactly when the comparator ties no two keys of any
   * object inside it, however deep.
   */
  lemma StableIffStrict(cmp: Comparator, j: Json)
    requires Consistent(cmp) && WellFormed(j)
    ensures Stable(cmp, j) <==> Strict(cmp, j)
  {
    if Strict(cmp, j) {
      forall k: Json | WellFormed(k) && Meaning(k) == Meaning(j) ensures C.Canonical(cmp, k) == C.Canonical(cmp, j) {
        SameMeaningStrict(cmp, j, k);
        CanonicalDecidesMeaning(cmp, k, j);
      }
    } else {
      var k := Twin(cmp, j);
    }
  }
}
