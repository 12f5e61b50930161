/** Each request moves the balance once if it is approved, and never otherwise. */
module AdjustmentLaws {
  import opened Common
  import opened Adjustments
  import C = Credits

  /** The ledger's mutations for one request. */
  function MovesOf(ledger: seq<C.Entry>, id: Id): seq<C.Mutation> {
    if ledger == [] then []
    else
      var n := |ledger| - 1;
      var m := ledger[n].mutation;
      MovesOf(ledger[..n], id) + if m.sourceType == SOURCE && m.sourceId == id then [m] else []
  }

  /** A decision on a request, under some key. */
  ghost predicate DecidedAs(decisions: map<string, Decision>, d: Decision) {
    exists key :: key in decisions && decisions[key] == d
  }

  /** A decided request was decided by somebody else, and all its decisions are that one. */
  ghost predicate ReviewSound(o: Office, id: Id, row: Request) {
    && (row.status == Pending <==> row.decidedBy.None?) && row.decidedBy != Some(row.requestedBy)
    && (row.status == Pending ==> forall k :: k in o.decisions ==> o.decisions[k].request != id)
    && (row.status != Pending ==>
         && DecidedAs(o.decisions, Decision(id, row.decidedBy.value, row.status == Approved))
         && forall k, l ::
              (k in o.decisions && l in o.decisions && o.decisions[k].request == id && o.decisions[l].request == id)
              ==> k == l)
  }

  /** The moves a request should have made: its amount, once, exactly if it is approved. */
  predicate MovesSound(row: Request, moves: seq<C.Mutation>) {
    if row.status == Approved then
      && |moves| == 1 && moves[0].kind == C.Adjust && moves[0].user == row.user
      && moves[0].delta == C.Delta(row.amount, 0) && moves[0].actor == row.decidedBy
    else moves == []
  }

  predicate LedgerSound(o: Office, id: Id) {
    if id in o.requests then MovesSound(o.requests[id], MovesOf(o.book.ledger, id))
      else MovesOf(o.book.ledger, id) == []
  }

  predicate OnePendingEach(requests: map<Id, Request>) {
    forall a, b ::
      (a in requests && b in requests && requests[a].user == requests[b].user
       && requests[a].status == Pending && requests[b].status == Pending) ==> a == b
  }

  function ApprovedFor(user: Id): Request -> int {
    (r: Request) => if r.user == user && r.status == Approved then r.amount else 0
  }

  ghost predicate AmountsAgree(o: Office) {
    forall user: Id :: C.Tally(o.book.ledger, user).adjusted == MapSum(o.requests, ApprovedFor(user))
  }

  ghost predicate Inv(o: Office) {
    && (forall id: Id :: LedgerSound(o, id))
    && (forall id :: id in o.requests ==> ReviewSound(o, id, o.requests[id]))
    && (forall k :: k in o.decisions ==> o.decisions[k].request in o.requests)
    && OnePendingEach(o.requests) && AmountsAgree(o)
  }

  // ----- Appending -----

  lemma MovesAppend(ledger: seq<C.Entry>, e: C.Entry, id: Id)
    ensures MovesOf(ledger + [e], id) ==
      MovesOf(ledger, id) + if e.mutation.sourceType == SOURCE && e.mutation.sourceId == id then [e.mutation] else []
  {
    assert (ledger + [e])[..|ledger|] == ledger;
  }

  lemma TallyAppend(ledger: seq<C.Entry>, e: C.Entry, user: Id)
    ensures C.Tally(ledger + [e], user) == C.Count(C.Tally(ledger, user), e, user)
  {
    assert (ledger + [e])[..|ledger|] == ledger;
  }

  lemma {:induction false} ForeignMoves(before: seq<C.Entry>, after: seq<C.Entry>, id: Id, user: Id)
    requires Foreign(before, after)
    ensures MovesOf(after, id) == MovesOf(before, id)
    ensures C.Tally(after, user).adjusted == C.Tally(before, user).adjusted
    decreases |after|
  {
    if |after| == |before| {
      assert after == before;
    } else {
      ForeignMoves(before, after[..|after| - 1], id, user);
      assert ForeignEntry(after[|after| - 1]);
    }
  }

  // ----- Steps -----

  /** A submission that changes anything adds one pending request of a user who has none. */
  lemma SubmitShape(o: Office, x: SubmitInput, newId: Id)
    requires Submit(o, x, newId).Ok? && Submit(o, x, newId).office != o
    ensures newId !in o.requests && newId in Submit(o, x, newId).office.requests
    ensures var after := Submit(o, x, newId).office;
      var row := after.requests[newId];
      && after.requests == o.requests[newId := row] && after.decisions == o.decisions && after.book == o.book
      && row.status == Pending && row.decidedBy.None? && !PendingFor(o.requests, row.user)
  {
    hide ParseDelta, Bounded, PendingFor;
  }

  lemma SubmitKeepsInv(o: Office, x: SubmitInput, newId: Id)
    requires Inv(o) && Submit(o, x, newId).Ok?
    ensures Inv(Submit(o, x, newId).office)
  {
    hide Submit, C.Tally, MovesOf;
    var after := Submit(o, x, newId).office;
    if after != o {
      SubmitShape(o, x, newId);
      forall user: Id ensures C.Tally(after.book.ledger, user).adjusted == MapSum(after.requests, ApprovedFor(user)) {
        MapSumPut(o.requests, newId, after.requests[newId], ApprovedFor(user));
      }
      forall id: Id ensures LedgerSound(after, id) {
        assert LedgerSound(o, id);
      }
      forall id | id in after.requests ensures ReviewSound(after, id, after.requests[id]) {
        if id != newId {
          assert ReviewSound(o, id, o.requests[id]);
        }
      }
    }
  }

  /** The book after a decision: one more entry for an approval, the same otherwise. */
  predicate Books(o: Office, x: DecideInput, row: Request, after: Office) {
    if x.approve then
      && C.AdjustBalance(o.book, AdjustInputOf(x, row)).Ok?
      && after.book == C.AdjustBalance(o.book, AdjustInputOf(x, row)).book
    else after.book == o.book
  }

  predicate Effective(o: Office, x: DecideInput) {
    Decide(o, x).Ok? && Decide(o, x).office != o
  }

  lemma DecideShape(o: Office, x: DecideInput)
    requires Effective(o, x)
    ensures x.adjustment in o.requests
    ensures var row, after, key := o.requests[x.adjustment], Decide(o, x).office, Trim(x.key);
      && row.status == Pending && row.requestedBy != x.actor
      && (key in o.decisions ==> o.decisions[key].request !in o.requests)
      && after.requests == o.requests[x.adjustment :=
           row.(status := if x.approve then Approved else Rejected, decidedBy := Some(x.actor))]
      && after.decisions == o.decisions[key := Decision(x.adjustment, x.actor, x.approve)]
      && Books(o, x, row, after)
  {
  }

  lemma DecideKeepsLedger(o: Office, x: DecideInput, id: Id)
    requires Effective(o, x) && LedgerSound(o, id)
    ensures LedgerSound(Decide(o, x).office, id)
  {
    DecideShape(o, x);
    var after := Decide(o, x).office;
    if x.approve {
      MovesAppend(o.book.ledger, after.book.ledger[|o.book.ledger|], id);
    }
  }

  lemma DecideKeepsAmount(o: Office, x: DecideInput, user: Id)
    requires Effective(o, x) && C.Tally(o.book.ledger, user).adjusted == MapSum(o.requests, ApprovedFor(user))
    ensures var after := Decide(o, x).office;
      C.Tally(after.book.ledger, user).adjusted == MapSum(after.requests, ApprovedFor(user))
  {
    DecideShape(o, x);
    hide Decide, Effective;
    var after := Decide(o, x).office;
    MapSumPut(o.requests, x.adjustment, after.requests[x.adjustment], ApprovedFor(user));
    if x.approve {
      AdjustAddsEntry(o.book, AdjustInputOf(x, o.requests[x.adjustment]), user);
    }
    hide MapSum, C.Tally, C.AdjustBalance;
  }

  lemma AdjustAddsEntry(b: C.Book, x: C.AdjustInput, user: Id)
    requires C.AdjustBalance(b, x).Ok?
    ensures C.Tally(C.AdjustBalance(b, x).book.ledger, user).adjusted ==
            C.Tally(b.ledger, user).adjusted + if x.user == user then x.amount else 0
  {
    TallyAppend(b.ledger, C.AdjustBalance(b, x).book.ledger[|b.ledger|], user);
  }

  lemma DecideKeepsAmounts(o: Office, x: DecideInput)
    requires Effective(o, x) && AmountsAgree(o)
    ensures AmountsAgree(Decide(o, x).office)
  {
    forall user: Id
      ensures C.Tally(Decide(o, x).office.book.ledger, user).adjusted ==
        MapSum(Decide(o, x).office.requests, ApprovedFor(user))
    {
      DecideKeepsAmount(o, x, user);
    }
  }

  lemma DecideKeepsReviews(o: Office, x: DecideInput, id: Id)
    requires Effective(o, x) && id in o.requests && ReviewSound(o, id, o.requests[id])
    requires x.adjustment in o.requests && ReviewSound(o, x.adjustment, o.requests[x.adjustment])
    requires forall k :: k in o.decisions ==> o.decisions[k].request in o.requests
    ensures ReviewSound(Decide(o, x).office, id, Decide(o, x).office.requests[id])
  {
    DecideShape(o, x);
    var after, key := Decide(o, x).office, Trim(x.key);
    if id == x.adjustment {
      assert key in after.decisions && after.decisions[key] == Decision(id, x.actor, x.approve);
    } else if o.requests[id].status != Pending {
      var d := Decision(id, o.requests[id].decidedBy.value, o.requests[id].status == Approved);
      var k :| k in o.decisions && o.decisions[k] == d;
      assert k in after.decisions && after.decisions[k] == d;
    }
  }

  lemma DecideKeepsInv(o: Office, x: DecideInput)
    requires Inv(o) && Effective(o, x)
    ensures Inv(Decide(o, x).office)
  {
    DecideShape(o, x);
    DecideKeepsAmounts(o, x);
    var after := Decide(o, x).office;
    forall id: Id ensures LedgerSound(after, id) {
      DecideKeepsLedger(o, x, id);
    }
    forall id | id in after.requests ensures ReviewSound(after, id, after.requests[id]) {
      DecideKeepsReviews(o, x, id);
    }
  }

  lemma CreditKeepsInv(o: Office, book: C.Book)
    requires Inv(o) && Foreign(o.book.ledger, book.ledger)
    ensures Inv(o.(book := book))
  {
    var after := o.(book := book);
    forall id: Id ensures LedgerSound(after, id) {
      assert LedgerSound(o, id);
      ForeignMoves(o.book.ledger, book.ledger, id, "");
    }
    forall user: Id ensures C.Tally(after.book.ledger, user).adjusted == MapSum(after.requests, ApprovedFor(user)) {
      ForeignMoves(o.book.ledger, book.ledger, "", user);
    }
    forall id | id in after.requests ensures ReviewSound(after, id, after.requests[id]) {
      assert ReviewSound(o, id, o.requests[id]);
    }
  }

  /**
   * After any run: an approved request has moved its customer's balance by its amount exactly once, others not at
   * all; the reviewer is not the requester; nobody has two pending requests; and what the ledger counts as adjusted
   * for a customer is the sum of their approved requests.
   */
  lemma {:induction false} RunKeepsInv(o: Office, steps: seq<Step>)
    requires Inv(o)
    ensures Inv(Run(o, steps))
    decreases |steps|
  {
    if steps != [] {
      match steps[0] {
        case SubmitStep(x, newId) =>
          if Submit(o, x, newId).Ok? {
            SubmitKeepsInv(o, x, newId);
          }
        case DecideStep(x) =>
          if Effective(o, x) {
            DecideKeepsInv(o, x);
          }
        case CreditStep(c) =>
          if Foreign(o.book.ledger, C.Next(o.book, c).ledger) {
            CreditKeepsInv(o, C.Next(o.book, c));
          }
      }
      RunKeepsInv(Next(o, steps[0]), steps[1..]);
    }
  }

  lemma FromEmpty(steps: seq<Step>)
    ensures Inv(Run(Office(C.EMPTY_BOOK, map[], map[], map[]), steps))
  {
    RunKeepsInv(Office(C.EMPTY_BOOK, map[], map[], map[]), steps);
  }

  // ----- Retries -----

  /** Decisions stay under their keys, and requests continue. */
  predicate Extends(o: Office, later: Office) {
    && (forall k :: k in o.decisions && o.decisions[k].request in o.requests ==>
         k in later.decisions && later.decisions[k] == o.decisions[k])
    && (forall id :: id in o.requests ==>
         id in later.requests && Continues(o.requests[id], later.requests[id]))
  }

  /** What was asked for never changes, and nothing does once it is decided. */
  predicate Continues(r: Request, later: Request) {
    && later == r.(status := later.status, decidedBy := later.decidedBy)
    && (r.status != Pending ==> later == r)
  }

  lemma NextExtends(o: Office, s: Step)
    ensures Extends(o, Next(o, s))
  {
    match s
    case SubmitStep(_, _) =>
    case DecideStep(x) =>
      if Effective(o, x) {
        DecideShape(o, x);
      }
    case CreditStep(_) =>
  }

  lemma {:induction false} RunExtends(o: Office, steps: seq<Step>)
    ensures Extends(o, Run(o, steps))
    decreases |steps|
  {
    if steps != [] {
      NextExtends(o, steps[0]);
      RunExtends(Next(o, steps[0]), steps[1..]);
    }
  }

  /**
   * However much later, a repeated decision is answered with the state it led to and moves nothing; any other
   * decision under its key is refused.
   */
  lemma DecideAgain(o: Office, x: DecideInput, steps: seq<Step>, y: DecideInput)
    requires Effective(o, x) && Trim(y.key) == Trim(x.key) && Bounded(y.note, 3, 500).Some?
    ensures var later := Run(Decide(o, x).office, steps);
      Decide(later, y) ==
        if (y.adjustment, y.actor, y.approve) == (x.adjustment, x.actor, x.approve)
        then Ok(later, Decided(x.adjustment, if x.approve then Approved else Rejected, true))
        else Err(KeyConflict)
  {
    DecideShape(o, x);
    RunExtends(Decide(o, x).office, steps);
  }

  // ----- From the text to the balance -----

  /** Submitting the text of a number, with any white space around it, asks for that number of credits. */
  lemma SubmissionAsks(o: Office, x: SubmitInput, newId: Id, n: int)
    requires Trim(x.amountDelta) == WrittenDelta(n) && n != 0 && -MAXIMUM <= n <= MAXIMUM
    requires Submit(o, x, newId).Ok? && Submit(o, x, newId).reply == Submitted(newId, Pending, false)
    ensures newId in Submit(o, x, newId).office.requests
    ensures var row := Submit(o, x, newId).office.requests[newId];
      row.user == x.customer && row.amount == n && row.requestedBy == x.actor && row.status == Pending
  {
    hide ParseDelta, WrittenDelta, Trim;
    DeltaReadIff(x.amountDelta, n);
  }

  /**
   * However much later it is approved, it moves the customer's available credits by exactly that number, up or down
   * as its sign says, and nothing else of theirs or anybody's.
   */
  lemma ApprovalMovesWhatWasWritten(o: Office, x: SubmitInput, newId: Id, n: int, between: seq<Step>, y: DecideInput)
    requires Trim(x.amountDelta) == WrittenDelta(n) && n != 0 && -MAXIMUM <= n <= MAXIMUM
    requires Submit(o, x, newId).Ok? && Submit(o, x, newId).reply == Submitted(newId, Pending, false)
    requires y.adjustment == newId && y.approve && Effective(Run(Submit(o, x, newId).office, between), y)
    ensures var later := Run(Submit(o, x, newId).office, between);
      var was, now := C.AccountOf(later.book, x.customer).balance,
                      C.AccountOf(Decide(later, y).office.book, x.customer).balance;
      && now == C.Balance(was.available + n, was.reserved) && now.available >= 0
      && forall user :: user != x.customer ==>
           C.AccountOf(Decide(later, y).office.book, user) == C.AccountOf(later.book, user)
  {
    hide Submit, Run, Decide, WrittenDelta, Trim;
    var first := Submit(o, x, newId).office;
    var later := Run(first, between);
    SubmissionAsks(o, x, newId, n);
    RunExtends(first, between);
    assert Continues(first.requests[newId], later.requests[newId]);
    DecideShape(later, y);
  }
}
