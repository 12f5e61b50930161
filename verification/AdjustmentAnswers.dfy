/** Which requests and decisions are accepted, and what they leave. */
module AdjustmentAnswers {
  import opened Common
  import opened Adjustments
  import opened AdjustmentLaws
  import C = Credits

  // ----- Submitting -----

  predicate HasLength(value: string, minimum: nat, maximum: nat) {
    minimum <= |Trim(value)| <= maximum
  }

  /** The text is the written form of a number other than zero of at most twelve digits. */
  predicate IsAmount(value: string) {
    ParseDelta(value).Some?
  }

  lemma AmountIff(value: string)
    ensures IsAmount(value) <==>
      exists n :: Trim(value) == WrittenDelta(n) && n != 0 && -999999999999 <= n <= 999999999999
  {
    hide ParseDelta, WrittenDelta, Trim;
    if IsAmount(value) {
      DeltaReadIff(value, ParseDelta(value).value);
    }
    if n :| Trim(value) == WrittenDelta(n) && n != 0 && -999999999999 <= n <= 999999999999 {
      DeltaReadIff(value, n);
    }
  }

  /**
   * Under an unused key a request is accepted exactly if its texts have the stated lengths, its amount is one, and
   * the customer has no other request pending; it then waits with just what was asked.
   */
  lemma SubmissionAcceptedIff(o: Office, x: SubmitInput, newId: Id)
    requires newId !in o.requests && (x.actor, Trim(x.key)) !in o.byKey
    ensures Submit(o, x, newId).Ok? <==>
      && IsAmount(x.amountDelta) && HasLength(x.reason, 3, 500) && HasLength(x.evidence, 0, 500)
      && HasLength(x.key, 8, 160)
      && forall r :: r in o.requests && o.requests[r].user == x.customer ==> o.requests[r].status != Pending
    ensures Submit(o, x, newId).Ok? ==>
      && Submit(o, x, newId).reply == Submitted(newId, Pending, false)
      && newId in Submit(o, x, newId).office.requests
      && var after := Submit(o, x, newId).office;
         && after == o.(requests := o.requests[newId := after.requests[newId]],
                        byKey := o.byKey[(x.actor, Trim(x.key)) := newId])
         && var row := after.requests[newId];
         && row.user == x.customer && row.reason == Trim(x.reason) && row.evidence == Trim(x.evidence)
         && row.status == Pending && row.requestedBy == x.actor && row.key == Trim(x.key) && row.decidedBy.None?
  {
    hide ParseDelta, Trim;
  }

  lemma SubmissionIsFound(o: Office, x: SubmitInput, newId: Id)
    requires Submit(o, x, newId).Ok?
    ensures var after, slot := Submit(o, x, newId).office, (x.actor, Trim(x.key));
      && slot in after.byKey && after.byKey[slot] in after.requests
      && Submit(o, x, newId).reply.Submitted? && Submit(o, x, newId).reply.id == after.byKey[slot]
      && var row := after.requests[after.byKey[slot]];
      && row.user == x.customer && row.reason == Trim(x.reason) && row.evidence == Trim(x.evidence)
      && ParseDelta(x.amountDelta) == Some(row.amount)
  {
    hide ParseDelta, Trim;
  }

  /** Slots keep the request they lead to. */
  predicate KeepsSlots(o: Office, later: Office) {
    forall k :: k in o.byKey && o.byKey[k] in o.requests ==>
      k in later.byKey && later.byKey[k] == o.byKey[k] && o.byKey[k] in later.requests
  }

  lemma NextKeepsSlots(o: Office, s: Step)
    ensures KeepsSlots(o, Next(o, s))
  {
    hide ParseDelta, Bounded, C.Next, Foreign;
    match s
    case SubmitStep(_, _) =>
    case DecideStep(x) =>
      if Effective(o, x) {
        DecideKeepsSlots(o, x);
      }
    case CreditStep(_) =>
  }

  lemma DecideKeepsSlots(o: Office, x: DecideInput)
    requires Decide(o, x).Ok?
    ensures Decide(o, x).office.byKey == o.byKey && o.requests.Keys <= Decide(o, x).office.requests.Keys
  {
    hide Bounded;
  }

  lemma {:induction false} RunKeepsSlots(o: Office, steps: seq<Step>)
    ensures KeepsSlots(o, Run(o, steps))
    decreases |steps|
  {
    hide Next;
    if steps != [] {
      NextKeepsSlots(o, steps[0]);
      RunKeepsSlots(Next(o, steps[0]), steps[1..]);
    }
  }

  /**
   * However much later, the same request under its key is answered with the first one as it stands by then, and any
   * other request under the key is refused.
   */
  lemma SubmitAgain(o: Office, x: SubmitInput, newId: Id, steps: seq<Step>, y: SubmitInput, otherId: Id)
    requires Submit(o, x, newId).Ok? && y.actor == x.actor && Trim(y.key) == Trim(x.key)
    requires IsAmount(y.amountDelta) && HasLength(y.reason, 3, 500) && HasLength(y.evidence, 0, 500)
    ensures Submit(o, x, newId).reply.Submitted?
    ensures var first, later := Submit(o, x, newId).reply.id, Run(Submit(o, x, newId).office, steps);
      && first in later.requests
      && Submit(later, y, otherId) ==
         if y.customer == x.customer && ParseDelta(y.amountDelta) == ParseDelta(x.amountDelta)
            && Trim(y.reason) == Trim(x.reason) && Trim(y.evidence) == Trim(x.evidence)
         then Ok(later, Submitted(first, later.requests[first].status, true)) else Err(KeyConflict)
  {
    hide ParseDelta, Trim, Run;
    var next := Submit(o, x, newId).office;
    SubmissionIsFound(o, x, newId);
    RunKeepsSlots(next, steps);
    RunExtends(next, steps);
    var slot := (x.actor, Trim(x.key));
    assert Continues(next.requests[next.byKey[slot]], Run(next, steps).requests[next.byKey[slot]]);
    KeyLengthKept(o, x, newId);
  }

  lemma KeyLengthKept(o: Office, x: SubmitInput, newId: Id)
    requires Submit(o, x, newId).Ok?
    ensures HasLength(x.key, 8, 160)
  {
    hide ParseDelta, Trim;
  }

  // ----- Deciding -----

  /** Keys and sources of adjustments are used for nothing else in the ledger. */
  predicate AdjustmentKeys(ledger: seq<C.Entry>) {
    forall i :: 0 <= i < |ledger| ==>
      var m := ledger[i].mutation;
      m.sourceType == SOURCE || "credit-adjustment:" <= m.key ==>
        m.sourceType == SOURCE && m.key == "credit-adjustment:" + m.sourceId
  }

  lemma NextKeepsKeys(o: Office, s: Step)
    requires AdjustmentKeys(o.book.ledger)
    ensures AdjustmentKeys(Next(o, s).book.ledger)
  {
    hide ParseDelta, Bounded, C.Next, Submit, Decide;
    match s
    case SubmitStep(x, newId) =>
      if Submit(o, x, newId).Ok? && Submit(o, x, newId).office != o {
        SubmitShape(o, x, newId);
      }
    case DecideStep(x) =>
      if Effective(o, x) {
        DecideShape(o, x);
      }
    case CreditStep(c) => ForeignKeepsKeys(o.book.ledger, C.Next(o.book, c).ledger);
  }

  lemma ForeignKeepsKeys(before: seq<C.Entry>, after: seq<C.Entry>)
    requires AdjustmentKeys(before)
    ensures Foreign(before, after) ==> AdjustmentKeys(after)
  {
    if Foreign(before, after) {
      forall i | 0 <= i < |after|
        ensures var m := after[i].mutation;
          m.sourceType == SOURCE || "credit-adjustment:" <= m.key ==>
            m.sourceType == SOURCE && m.key == "credit-adjustment:" + m.sourceId
      {
        if i < |before| {
          assert after[i] == before[i];
        } else {
          assert ForeignEntry(after[i]);
        }
      }
    }
  }

  lemma {:induction false} RunKeepsKeys(o: Office, steps: seq<Step>)
    requires AdjustmentKeys(o.book.ledger)
    ensures AdjustmentKeys(Run(o, steps).book.ledger)
    decreases |steps|
  {
    hide Next, AdjustmentKeys;
    if steps != [] {
      NextKeepsKeys(o, steps[0]);
      RunKeepsKeys(Next(o, steps[0]), steps[1..]);
    }
  }

  lemma KeysCancel(a: Id, b: Id)
    ensures "credit-adjustment:" + a == "credit-adjustment:" + b ==> a == b
  {
    var prefix := "credit-adjustment:";
    assert (prefix + a)[|prefix|..] == a && (prefix + b)[|prefix|..] == b;
  }

  /** A request that has moved nothing has no row in the ledger, under its key or its source. */
  lemma {:induction false} UnmovedIsUnused(ledger: seq<C.Entry>, id: Id, m: C.Mutation)
    requires AdjustmentKeys(ledger) && MovesOf(ledger, id) == []
    requires m.sourceType == SOURCE && m.sourceId == id && m.key == "credit-adjustment:" + id
    ensures C.EntryByKey(ledger, m.key).None? && !C.SourceTaken(ledger, m)
  {
    if ledger != [] {
      var n := |ledger| - 1;
      UnmovedIsUnused(ledger[..n], id, m);
      var e := ledger[n].mutation;
      KeysCancel(e.sourceId, id);
      assert "credit-adjustment:" <= m.key;
      forall i | 0 <= i < |ledger| ensures !C.SameSource(ledger[i].mutation, m) {
        if i < n {
          assert ledger[..n][i] == ledger[i];
        }
      }
    }
  }

  /**
   * In every reachable office, under an unused key: a decision is accepted exactly if its texts have the stated
   * lengths, the request is pending, and somebody else made it; and an approval moreover if the customer can afford
   * it.
   */
  lemma DecisionAcceptedIff(steps: seq<Step>, x: DecideInput)
    requires var o := Run(Office(C.EMPTY_BOOK, map[], map[], map[]), steps);
      x.adjustment in o.requests && Trim(x.key) !in o.decisions
    ensures var o := Run(Office(C.EMPTY_BOOK, map[], map[], map[]), steps);
      var row := o.requests[x.adjustment];
      && (Decide(o, x).Ok? <==>
            && HasLength(x.note, 3, 500) && HasLength(x.key, 8, 160)
            && row.status == Pending && row.requestedBy != x.actor
            && (x.approve ==> C.AccountOf(o.book, row.user).balance.available + row.amount >= 0))
      && (Decide(o, x).Ok? ==>
            && Decide(o, x).reply == Decided(x.adjustment, if x.approve then Approved else Rejected, false)
            && x.adjustment in Decide(o, x).office.requests
            && Decide(o, x).office.requests[x.adjustment] ==
               row.(status := if x.approve then Approved else Rejected, decidedBy := Some(x.actor)))
  {
    hide Trim, Inv, MovesOf, AdjustmentKeys, C.SourceTaken, C.EntryByKey, Run;
    var first := Office(C.EMPTY_BOOK, map[], map[], map[]);
    var o := Run(first, steps);
    FromEmpty(steps);
    NoKeysYet();
    RunKeepsKeys(first, steps);
    if o.requests[x.adjustment].status == Pending {
      PendingHasNotMoved(o, x.adjustment);
      UnmovedIsUnused(o.book.ledger, x.adjustment, C.AdjustMutation(AdjustInputOf(x, o.requests[x.adjustment])));
      AmountsAreNotZero(steps, x.adjustment);
    }
  }

  lemma NoKeysYet()
    ensures AdjustmentKeys(C.EMPTY_BOOK.ledger)
  {
  }

  lemma PendingHasNotMoved(o: Office, id: Id)
    requires Inv(o) && id in o.requests && o.requests[id].status == Pending
    ensures MovesOf(o.book.ledger, id) == []
  {
    assert LedgerSound(o, id);
  }

  /** Nobody asks for nothing. */
  predicate NoZero(o: Office) {
    forall id :: id in o.requests ==> o.requests[id].amount != 0
  }

  lemma NextNoZero(o: Office, s: Step)
    requires NoZero(o)
    ensures NoZero(Next(o, s))
  {
    hide ParseDelta, Bounded, C.Next, Foreign;
    match s
    case SubmitStep(x, newId) =>
      if ParseDelta(x.amountDelta).Some? {
        DeltaInRange(x.amountDelta);
      }
    case DecideStep(x) =>
    case CreditStep(_) =>
  }

  lemma {:induction false} RunNoZero(o: Office, steps: seq<Step>)
    requires NoZero(o)
    ensures NoZero(Run(o, steps))
    decreases |steps|
  {
    hide Next, NoZero;
    if steps != [] {
      NextNoZero(o, steps[0]);
      RunNoZero(Next(o, steps[0]), steps[1..]);
    }
  }

  lemma AmountsAreNotZero(steps: seq<Step>, id: Id)
    requires id in Run(Office(C.EMPTY_BOOK, map[], map[], map[]), steps).requests
    ensures Run(Office(C.EMPTY_BOOK, map[], map[], map[]), steps).requests[id].amount != 0
  {
    hide Next;
    RunNoZero(Office(C.EMPTY_BOOK, map[], map[], map[]), steps);
  }
}
