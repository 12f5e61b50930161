/** What callers are told: the stored outcome of a request, however often and however much later they ask. */
module InferenceAnswers {
  import opened Common
  import opened Inference
  import opened InferenceLaws
  import C = Credits
  import CL = CreditLaws

  // ----- Asking again -----

  /** The begin call of the request made again. */
  predicate BeginsAgain(s: Step, r: Request) {
    && s.BeginStep? && s.begin.user == r.user && s.begin.operation == r.operation && s.begin.key == r.key
    && s.begin.payloadHash == r.payloadHash
    && !IsBlank(s.begin.model) && |s.begin.model| <= 160 && s.begin.estimated > 0
  }

  predicate Reads(s: Step, r: Request) {
    && s.ReadStep? && s.read.user == r.user && s.read.operation == r.operation && s.read.key == r.key
    && s.read.payloadHash == r.payloadHash
  }

  /** A completion of the request, with any result and any usage. */
  predicate CompletesAgain(s: Step, id: Id, r: Request) {
    && s.CompleteStep? && s.complete.request == id && Some(s.complete.reservation) == r.reservation
    && s.complete.key == r.key && !IsBlank(s.complete.usageId) && s.complete.providerRequestId == s.complete.usageId
  }

  predicate AsksAgain(s: Step, id: Id, r: Request) {
    BeginsAgain(s, r) || Reads(s, r) || CompletesAgain(s, id, r)
  }

  /** The request can be found again by its key. */
  ghost predicate Findable(d: Desk, id: Id) {
    && id in d.requests && IsIdempotencyKey(d.requests[id].key)
    && var r := d.requests[id];
       (r.user, r.operation, r.key) in d.byKey && d.byKey[(r.user, r.operation, r.key)] == id
  }

  ghost predicate AllFindable(d: Desk) {
    forall id :: id in d.requests ==> Findable(d, id)
  }

  lemma BeginFinds(d: Desk, x: BeginInput, newId: Id, newReservation: Id, now: int)
    requires AllFindable(d)
    ensures AllFindable(Begin(d, x, newId, newReservation, now).desk)
  {
    hide C.Hold, IsIdempotencyKey;
    var next := Begin(d, x, newId, newReservation, now).desk;
    forall id | id in next.requests ensures Findable(next, id) {
      if id in d.requests {
        assert Findable(d, id);
      }
    }
  }

  /** Requests keep what they are found by. */
  lemma ExtendedFinds(d: Desk, later: Desk)
    requires AllFindable(d) && Extends(d, later) && later.requests.Keys == d.requests.Keys
    ensures AllFindable(later)
  {
    hide IsIdempotencyKey, CL.Extends;
    forall id | id in later.requests ensures Findable(later, id) {
      assert Findable(d, id) && Continues(d.requests[id], later.requests[id]);
    }
  }

  lemma OthersAddNone(d: Desk, s: Step)
    requires !s.BeginStep?
    ensures Next(d, s).requests.Keys == d.requests.Keys
  {
    hide Next, Complete, Fail, Cancel, Reconcile, ReadReplay;
    match s
    case CompleteStep(x) =>
      NextComplete(d, x);
      if Complete(d, x).desk != d {
        CompleteShape(d, x);
      }
    case FailStep(x) =>
      NextFail(d, x);
      FailAddsNone(d, x);
    case CancelStep(user, id, requestId) =>
      NextCancel(d, user, id, requestId);
      CancelAddsNone(d, user, id, requestId);
    case ReconcileStep(id, now, requestId) =>
      NextReconcile(d, id, now, requestId);
      ReconcileAddsNone(d, id, now, requestId);
    case ReadStep(x, now) =>
      NextRead(d, x, now);
      ReadAddsNone(d, x, now);
    case ForeignStep(c) => ForeignAddsNone(d, c);
  }

  lemma FailAddsNone(d: Desk, x: FailInput)
    ensures Fail(d, x).desk.requests.Keys == d.requests.Keys
  {
    hide C.Free, FailureOf;
  }

  lemma CancelAddsNone(d: Desk, user: Id, requested: Id, requestId: string)
    ensures Cancel(d, user, requested, requestId).desk.requests.Keys == d.requests.Keys
  {
    hide C.Free, IsUuid;
  }

  lemma ReconcileAddsNone(d: Desk, id: Id, now: int, requestId: string)
    ensures Reconcile(d, id, now, requestId).desk.requests.Keys == d.requests.Keys
  {
    hide C.Free;
  }

  lemma ReadAddsNone(d: Desk, x: ReadInput, now: int)
    ensures ReadReplay(d, x, now).desk.requests.Keys == d.requests.Keys
  {
    hide Reconcile;
    if (x.user, x.operation, x.key) in d.byKey {
      var id := d.byKey[(x.user, x.operation, x.key)];
      ReconcileAddsNone(d, id, now, "client-ai:" + id + ":replay-reconcile");
    }
  }

  lemma ForeignAddsNone(d: Desk, c: C.Step)
    ensures Next(d, ForeignStep(c)).requests == d.requests
  {
    hide IsForeign, C.Exec, Begin, Complete, Fail, Cancel, Reconcile, ReadReplay;
  }

  lemma {:induction false} RunFinds(d: Desk, steps: seq<Step>)
    requires Inv(d) && AllFindable(d)
    ensures AllFindable(Run(d, steps))
    decreases |steps|
  {
    hide Inv, Next, AllFindable, Extends;
    if steps != [] {
      var s := steps[0];
      ExecKeepsInv(d, s);
      if s.BeginStep? {
        NextBegin(d, s.begin, s.newId, s.newReservation, s.now);
        BeginFinds(d, s.begin, s.newId, s.newReservation, s.now);
      } else {
        InvExtends(d, s);
        OthersAddNone(d, s);
        ExtendedFinds(d, Next(d, s));
      }
      RunFinds(Next(d, s), steps[1..]);
    }
  }

  lemma ReachableFinds(steps: seq<Step>, id: Id)
    requires id in Run(EMPTY_DESK, steps).requests
    ensures Findable(Run(EMPTY_DESK, steps), id) && RequestOk(Run(EMPTY_DESK, steps), id)
  {
    hide Next, Findable, RequestOk;
    EmptyDeskInv();
    RunKeepsInv(EMPTY_DESK, steps);
    RunFinds(EMPTY_DESK, steps);
  }

  // ----- Answers by what is stored -----

  /** A succeeded request answers its result, and nothing changes. */
  lemma SucceededAnswers(d: Desk, id: Id, s: Step)
    requires Findable(d, id) && d.requests[id].status == Succeeded && AsksAgain(s, id, d.requests[id])
    ensures Exec(d, s) == Outcome(d, Completed(d.requests[id].result))
  {
    hide C.Hold, C.Charge, C.Free, IsIdempotencyKey, Fail, Cancel, C.Exec, IsForeign;
  }

  /** A failed request answers its stored failure, and nothing changes. */
  lemma FailedAnswers(d: Desk, id: Id, s: Step, f: Failure)
    requires Findable(d, id) && d.requests[id].status == Failed && d.requests[id].failure == Some(f)
    requires AsksAgain(s, id, d.requests[id])
    ensures Exec(d, s) == Outcome(d, Rejected(Stored(f)))
  {
    hide C.Hold, C.Charge, C.Free, IsIdempotencyKey, Fail, Cancel, C.Exec, IsForeign;
  }

  /** While a request is processing, its begin and a read before its hold expires are told so, and change nothing. */
  lemma ProcessingAnswers(steps: seq<Step>, id: Id, s: Step)
    requires id in Run(EMPTY_DESK, steps).requests && Run(EMPTY_DESK, steps).requests[id].status == Processing
    requires var d := Run(EMPTY_DESK, steps);
      || BeginsAgain(s, d.requests[id])
      || (Reads(s, d.requests[id]) && Joined(d, id)
          && s.now < d.book.reservations[d.requests[id].reservation.value].expiresAt)
    ensures Exec(Run(EMPTY_DESK, steps), s) == Outcome(Run(EMPTY_DESK, steps), Rejected(InProgress))
  {
    hide C.Hold, C.Charge, C.Free, IsIdempotencyKey, Fail, Cancel, Complete, C.Exec, IsForeign;
    ReachableFinds(steps, id);
  }

  // ----- Answers at any later time -----

  /** A terminal row of a reachable desk is the same at any later time, and there too it can be found. */
  lemma TerminalStays(steps: seq<Step>, s: Step, after: seq<Step>, id: Id)
    requires var next := Next(Run(EMPTY_DESK, steps), s); id in next.requests && next.requests[id].status != Processing
    ensures var next := Next(Run(EMPTY_DESK, steps), s);
      var later := Run(next, after);
      && id in later.requests && later.requests[id] == next.requests[id] && Findable(later, id)
  {
    hide Next, Inv, AllFindable, Findable;
    var d := Run(EMPTY_DESK, steps);
    var next := Next(d, s);
    EmptyDeskInv();
    RunKeepsInv(EMPTY_DESK, steps);
    ExecKeepsInv(d, s);
    RunExtends(next, after);
    assert Continues(next.requests[id], Run(next, after).requests[id]);
    RunJoins(EMPTY_DESK, steps, [s] + after);
    assert ([s] + after)[0] == s && ([s] + after)[1..] == after;
    ReachableFinds(steps + ([s] + after), id);
  }

  lemma {:induction false} RunJoins(d: Desk, first: seq<Step>, second: seq<Step>)
    ensures Run(d, first + second) == Run(Run(d, first), second)
    decreases |first|
  {
    hide Next;
    if first == [] {
      assert first + second == second;
    } else {
      assert (first + second)[1..] == first[1..] + second;
      RunJoins(Next(d, first[0]), first[1..], second);
    }
  }

  /**
   * Once a completion has been carried out with a result, whatever runs after it, every later begin, read or
   * completion of the request is answered with that very result, and changes nothing.
   */
  lemma CompletedIsAnswered(before: seq<Step>, x: CompleteInput, after: seq<Step>, s: Step)
    requires Complete(Run(EMPTY_DESK, before), x).desk != Run(EMPTY_DESK, before)
    requires x.request in Run(EMPTY_DESK, before).requests
      && AsksAgain(s, x.request, Run(EMPTY_DESK, before).requests[x.request])
    ensures var later := Run(Next(Run(EMPTY_DESK, before), CompleteStep(x)), after);
      Exec(later, s) == Outcome(later, Completed(x.result))
  {
    hide Next, Exec, Complete, Findable, AsksAgain;
    var d := Run(EMPTY_DESK, before);
    NextComplete(d, x);
    CompleteShape(d, x);
    TerminalStays(before, CompleteStep(x), after, x.request);
    var later := Run(Next(d, CompleteStep(x)), after);
    SameAsking(s, x.request, d.requests[x.request], later.requests[x.request]);
    SucceededAnswers(later, x.request, s);
  }

  /** What a call is recognised by does not change when the request ends. */
  lemma SameAsking(s: Step, id: Id, r: Request, later: Request)
    requires AsksAgain(s, id, r)
    requires (later.user, later.operation, later.key, later.payloadHash, later.reservation) ==
      (r.user, r.operation, r.key, r.payloadHash, r.reservation)
    ensures AsksAgain(s, id, later)
  {
  }

  /** The request has ended with this failure in the step. */
  predicate FailsWith(d: Desk, s: Step, id: Id, f: Failure) {
    && id in d.requests && d.requests[id].status == Processing && id in Next(d, s).requests
    && Next(d, s).requests[id] == d.requests[id].(status := Failed, failure := Some(f))
  }

  /** Likewise for a failure, by whichever step the request has failed. */
  lemma FailureIsAnswered(before: seq<Step>, cause: Step, id: Id, f: Failure, after: seq<Step>, s: Step)
    requires FailsWith(Run(EMPTY_DESK, before), cause, id, f)
    requires AsksAgain(s, id, Run(EMPTY_DESK, before).requests[id])
    ensures var later := Run(Next(Run(EMPTY_DESK, before), cause), after);
      Exec(later, s) == Outcome(later, Rejected(Stored(f)))
  {
    hide Next, Exec, Findable, AsksAgain;
    var d := Run(EMPTY_DESK, before);
    TerminalStays(before, cause, after, id);
    var later := Run(Next(d, cause), after);
    SameAsking(s, id, d.requests[id], later.requests[id]);
    FailedAnswers(later, id, s, f);
  }

  /** The failure a fail call stores is its own: code and message trimmed and cut, and its status. */
  lemma FailStores(d: Desk, x: FailInput)
    requires Fail(d, x).reply == FailRecorded(true)
    ensures FailsWith(d, FailStep(x), x.request,
                      Failure(Clip(Trim(x.code), 120), Clip(Trim(x.message), 500), x.status))
  {
    hide Next, C.Free;
    NextFail(d, x);
  }

  lemma CancelStores(d: Desk, user: Id, requested: Id, requestId: string)
    requires Cancel(d, user, requested, requestId).reply == Cancelled(true)
    ensures exists f ::
      FailsWith(d, CancelStep(user, requested, requestId), Trim(requested), f)
      && f.code == "AI_REQUEST_CANCELLED" && f.status == 409
  {
    hide Next, C.Free, IsUuid;
    NextCancel(d, user, requested, requestId);
    assert FailsWith(d, CancelStep(user, requested, requestId), Trim(requested),
                     Failure(CANCEL_CODE, "cancelled by the user", 409));
  }

  lemma ReconcileStores(d: Desk, id: Id, now: int, requestId: string)
    requires Reconcile(d, id, now, requestId).reply == StaleReleased
    ensures exists f ::
      FailsWith(d, ReconcileStep(id, now, requestId), id, f)
      && f.code == "AI_REQUEST_STALE_RELEASED" && f.status == 409
  {
    hide Next, C.Free;
    NextReconcile(d, id, now, requestId);
    assert FailsWith(d, ReconcileStep(id, now, requestId), id,
                     Failure("AI_REQUEST_STALE_RELEASED", "interrupted", 409));
  }

  // ----- Ending again -----

  /** A repeated fail call is confirmed if it is the same failure; otherwise it is refused, or told the result. */
  lemma FailAgain(d: Desk, x: FailInput)
    requires Owns(d, x.request, x.reservation, x.key) && d.requests[x.request].status != Processing
    requires var f := FailureOf(x); f.code != "" && f.message != "" && 400 <= f.status <= 599
    ensures Fail(d, x) == Outcome(d,
      if d.requests[x.request].status == Succeeded then Completed(d.requests[x.request].result)
      else if d.requests[x.request].failure == Some(FailureOf(x)) then FailRecorded(false)
      else Rejected(KeyCollision))
  {
  }

  /** What the owner of a request that has ended is told on cancelling it: which way it ended. Nothing changes. */
  lemma CancelAgain(steps: seq<Step>, requested: Id, requestId: string)
    requires var d := Run(EMPTY_DESK, steps);
      IsUuid(Trim(requested)) && Trim(requested) in d.requests && d.requests[Trim(requested)].status != Processing
    ensures var d := Run(EMPTY_DESK, steps);
      var row := d.requests[Trim(requested)];
      && (row.status == Succeeded <==> row.failure.None?)
      && Cancel(d, row.user, requested, requestId) == Outcome(d,
           if row.status == Succeeded then AlreadySettled
           else if row.failure.value.code == "AI_RECONCILIATION_REQUIRED" then RequiresReview
           else if row.failure.value.code == "AI_REQUEST_CANCELLED" then Cancelled(false)
           else AlreadyReleased)
  {
    hide Next, IsUuid, C.Free, Findable;
    ReachableFinds(steps, Trim(requested));
  }
}
