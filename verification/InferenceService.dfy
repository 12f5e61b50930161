/** The inference service: request rows updated in place, sharing transactions with the credit service. */
module InferenceService {
  import opened Common
  import opened Inference
  import C = Credits
  import CL = CreditLaws
  import L = InferenceLaws
  import opened CreditService

  datatype Batch = Batch(desk: Desk, released: nat, requiresReview: nat)

  /** What a batch of reconciliations does, the last candidate last. */
  function ReconcileAll(d: Desk, candidates: seq<Id>, now: int, requestId: string): Batch {
    if candidates == [] then Batch(d, 0, 0)
    else
      var n := |candidates| - 1;
      var before := ReconcileAll(d, candidates[..n], now, requestId);
      var out := Reconcile(before.desk, candidates[n], now, requestId);
      Batch(out.desk,
            before.released + if out.reply.StaleReleased? then 1 else 0,
            before.requiresReview + if out.reply.RequiresReview? then 1 else 0)
  }

  class ClientAiInferenceService {
    const credits: AiCreditService
    var requests: map<Id, Request>
    var byKey: map<(Id, Operation, string), Id>

    function State(): Desk
      reads this, credits
    {
      Desk(credits.State(), requests, byKey)
    }

    constructor (credits: AiCreditService)
      requires credits.State() == C.EMPTY_BOOK
      ensures this.credits == credits && State() == EMPTY_DESK
    {
      this.credits := credits;
      requests, byKey := map[], map[];
    }

    method Rollback(saved: Desk)
      modifies this, credits
      ensures State() == saved
    {
      credits.Rollback(saved.book);
      requests, byKey := saved.requests, saved.byKey;
    }

    method BeginInference(x: BeginInput, newId: Id, newReservation: Id, now: int) returns (r: Reply)
      modifies this, credits
      ensures Outcome(State(), r) == Begin(old(State()), x, newId, newReservation, now)
    {
      hide C.Hold, HoldInput, Replay;
      if !IsIdempotencyKey(x.key) {
        return Rejected(IdempotencyKeyRequired);
      }
      if IsBlank(x.model) || |x.model| > 160 {
        return Rejected(ModelNotConfigured);
      }
      if x.estimated <= 0 {
        return Rejected(RateNotReliable);
      }
      var index := (x.user, x.operation, x.key);
      if index in byKey {
        var id := byKey[index];
        if id !in requests || requests[id].payloadHash != x.payloadHash {
          return Rejected(KeyCollision);
        }
        return Replay(requests[id]);
      }
      if newId in requests {
        return Rejected(ConstraintViolation);
      }
      var saved := State();
      requests := requests[newId := NewRequest(x, "").(reservation := None)];
      byKey := byKey[index := newId];
      var held := credits.Reserve(HoldInput(x, newId, now), newReservation);
      if held.Failure? {
        Rollback(saved);
        return Rejected(if held.error == C.Insufficient then CreditsInsufficient else Credit(held.error));
      }
      HoldIsHeld(saved.book, HoldInput(x, newId, now), newReservation);
      var reservation := held.reply.reservation;
      requests := requests[newId := requests[newId].(reservation := Some(reservation))];
      r := Started(newId, reservation);
    }

    method CompleteInference(x: CompleteInput) returns (r: Reply)
      modifies this, credits
      ensures Outcome(State(), r) == Complete(old(State()), x)
    {
      hide C.Charge, SettleOf, Replay;
      if IsBlank(x.providerRequestId) || IsBlank(x.usageId) || x.providerRequestId != x.usageId {
        return Rejected(UsageNotReliable);
      }
      if x.request !in requests || requests[x.request].reservation != Some(x.reservation)
        || requests[x.request].key != x.key {
        return Rejected(RequestNotFound);
      }
      var row := requests[x.request];
      if row.status != Processing {
        return Replay(row);
      }
      var saved := State();
      var settled := credits.Settle(SettleOf(x));
      if settled.Failure? {
        return Rejected(Credit(settled.error));
      }
      if x.result == None {
        Rollback(saved);
        return Rejected(ResultInvalid);
      }
      if x.outputTokens == 0 || |x.usageId| > 200 || ProviderRequestTaken(saved, row.model, x.usageId) {
        Rollback(saved);
        return Rejected(ConstraintViolation);
      }
      requests := requests[x.request := row.(status := Succeeded, result := x.result, usageId := Some(x.usageId))];
      r := Completed(x.result);
    }

    method FailInference(x: FailInput) returns (r: Reply)
      modifies this, credits
      ensures Outcome(State(), r) == Fail(old(State()), x)
    {
      hide C.Free, FailureOf, Replay;
      var f := FailureOf(x);
      if f.code == "" || f.message == "" || f.status < 400 || f.status > 599 {
        return Rejected(FailureStateInvalid);
      }
      if x.request !in requests || requests[x.request].reservation != Some(x.reservation)
        || requests[x.request].key != x.key {
        return Rejected(RequestNotFound);
      }
      var row := requests[x.request];
      if row.status == Succeeded {
        return Replay(row);
      }
      if row.status == Failed {
        if row.failure != Some(f) {
          return Rejected(KeyCollision);
        }
        return FailRecorded(false);
      }
      var freed := credits.ReleaseHold(C.ReleaseInput(x.reservation, ReleaseKey(x.request), x.requestId, None));
      if freed.Failure? {
        return Rejected(Credit(freed.error));
      }
      requests := requests[x.request := row.(status := Failed, failure := Some(f))];
      r := FailRecorded(true);
    }

    method CancelInference(user: Id, requested: Id, requestId: string) returns (r: Reply)
      modifies this, credits
      ensures Outcome(State(), r) == Cancel(old(State()), user, requested, requestId)
    {
      var id := Trim(requested);
      if !IsUuid(id) || !Joined(State(), id) || requests[id].user != user {
        return Rejected(RequestNotFound);
      }
      var row := requests[id];
      var hold := credits.reservations[row.reservation.value].status;
      if row.status == Succeeded {
        return AlreadySettled;
      }
      if row.status == Failed {
        if (row.failure.Some? && row.failure.value.code == REVIEW_CODE) || hold != C.Released {
          return RequiresReview;
        }
        return if row.failure.Some? && row.failure.value.code == CANCEL_CODE then Cancelled(false) else AlreadyReleased;
      }
      if hold == C.Settled {
        requests := requests[id := row.(status := Failed,
                                        failure := Some(Failure(REVIEW_CODE, "settled without a result", 409)))];
        return RequiresReview;
      }
      if hold == C.Reserved {
        var freed := credits.ReleaseHold(C.ReleaseInput(row.reservation.value, CancelKey(id), requestId, None));
        if freed.Failure? {
          return Rejected(Credit(freed.error));
        }
      }
      requests := requests[id := row.(status := Failed,
                                      failure := Some(Failure(CANCEL_CODE, "cancelled by the user", 409)))];
      r := Cancelled(true);
    }

    method ReconcileStale(id: Id, now: int, requestId: string) returns (r: Reply)
      modifies this, credits
      ensures Outcome(State(), r) == Reconcile(old(State()), id, now, requestId)
    {
      if !Joined(State(), id) || requests[id].status != Processing {
        return Unchanged;
      }
      var row := requests[id];
      var hold := credits.reservations[row.reservation.value];
      if hold.expiresAt > now {
        return Unchanged;
      }
      if hold.status == C.Settled {
        requests := requests[id := row.(status := Failed,
                                        failure := Some(Failure(REVIEW_CODE, "interrupted after settlement", 409)))];
        return RequiresReview;
      }
      if hold.status == C.Reserved {
        var freed := credits.ReleaseHold(C.ReleaseInput(row.reservation.value, StaleKey(id), requestId, None));
        if freed.Failure? {
          return Rejected(Credit(freed.error));
        }
      }
      requests := requests[id := row.(status := Failed,
                                      failure := Some(Failure("AI_REQUEST_STALE_RELEASED", "interrupted", 409)))];
      r := StaleReleased;
    }

    /**
     * Reconciles a user's expired candidates one transaction at a time. The candidates are whatever rows the
     * query returned, in its order; each is checked again under its lock.
     */
    method ReconcileExpired(candidates: seq<Id>, now: int, requestId: string)
      returns (reconciled: nat, released: nat, requiresReview: nat)
      modifies this, credits
      ensures Batch(State(), released, requiresReview) == ReconcileAll(old(State()), candidates, now, requestId)
      ensures reconciled == released + requiresReview
    {
      released, requiresReview := 0, 0;
      for i := 0 to |candidates|
        invariant Batch(State(), released, requiresReview) ==
          ReconcileAll(old(State()), candidates[..i], now, requestId)
      {
        assert candidates[..i + 1][..i] == candidates[..i];
        var reply := ReconcileStale(candidates[i], now, requestId);
        if reply.StaleReleased? {
          released := released + 1;
        }
        if reply.RequiresReview? {
          requiresReview := requiresReview + 1;
        }
      }
      assert candidates[..|candidates|] == candidates;
      reconciled := released + requiresReview;
    }
  }

  lemma HoldIsHeld(b: C.Book, r: C.ReserveInput, newId: Id)
    ensures C.Hold(b, r, newId).Ok? ==> C.Hold(b, r, newId).reply.Held?
  {
    hide C.Mutate, C.EntryOf, C.SameReserve;
  }

  /** Still processing although its hold has expired. */
  predicate IsStale(d: Desk, id: Id, now: int) {
    Joined(d, id) && d.requests[id].status == Processing
      && d.book.reservations[d.requests[id].reservation.value].expiresAt <= now
  }

  /** The step leaves `id` not stale and all others as they were, without review or error. */
  ghost predicate Cleans(d: Desk, out: Outcome, id: Id, now: int) {
    && !out.reply.Rejected? && !out.reply.RequiresReview?
    && (out.reply.StaleReleased? <==> IsStale(d, id, now))
    && (forall other :: IsStale(out.desk, other, now) <==> IsStale(d, other, now) && other != id)
  }

  /** A stale request is released, and only its own reservation changes. */
  lemma StaleIsReleased(d: Desk, id: Id, now: int, requestId: string)
    requires L.Inv(d) && IsStale(d, id, now)
    ensures var out, rid := Reconcile(d, id, now, requestId), d.requests[id].reservation.value;
      && out.reply.StaleReleased?
      && id in out.desk.requests && out.desk.requests[id].status != Processing
      && out.desk.requests == d.requests[id := out.desk.requests[id]]
      && rid in d.book.reservations && rid in out.desk.book.reservations
      && out.desk.book.reservations == d.book.reservations[rid := out.desk.book.reservations[rid]]
  {
    assert L.RequestOk(d, id);
    var r := C.ReleaseInput(d.requests[id].reservation.value, StaleKey(id), requestId, None);
    L.EndingKeysUnused(d, id, StaleKey(id));
    CL.OpenHoldCanBeFreed(d.book, r);
    CL.FreeEffect(d.book, r);
  }

  lemma OthersKeepTheirHolds(d: Desk, id: Id, other: Id)
    requires L.RequestsInv(d) && Joined(d, id) && Joined(d, other) && other != id
    ensures d.requests[other].reservation != d.requests[id].reservation
  {
    assert L.RequestOk(d, id) && L.RequestOk(d, other);
    if d.requests[other].reservation == d.requests[id].reservation {
      L.IdIsRecovered(other, id, ":reserve");
    }
  }

  /** A stale request is cleaned up, and no other request shares its hold. */
  lemma StaleIsCleanedUp(d: Desk, id: Id, now: int, requestId: string)
    requires L.Inv(d) && IsStale(d, id, now)
    ensures Cleans(d, Reconcile(d, id, now, requestId), id, now)
  {
    hide Reconcile, CL.Inv, L.RequestsInv, L.HoldsInv, L.IndexInv, L.UsageInv, L.KeysInv;
    StaleIsReleased(d, id, now, requestId);
    forall other | other != id && Joined(d, other)
      ensures d.requests[other].reservation != d.requests[id].reservation
    {
      OthersKeepTheirHolds(d, id, other);
    }
  }

  /** Reconciliation always cleans a stale request up, and makes no other request stale. */
  lemma StaleIsCleaned(d: Desk, id: Id, now: int, requestId: string)
    requires L.Inv(d)
    ensures Cleans(d, Reconcile(d, id, now, requestId), id, now)
  {
    hide Reconcile, IsStale, CL.Inv, L.RequestsInv, L.HoldsInv, L.IndexInv, L.UsageInv, L.KeysInv;
    if IsStale(d, id, now) {
      StaleIsCleanedUp(d, id, now, requestId);
    } else {
      NothingToClean(d, id, now, requestId);
    }
  }

  lemma NothingToClean(d: Desk, id: Id, now: int, requestId: string)
    requires L.RequestsInv(d) && !IsStale(d, id, now)
    ensures var out := Reconcile(d, id, now, requestId);
      out.desk == d && !out.reply.Rejected? && !out.reply.RequiresReview? && !out.reply.StaleReleased?
  {
    if Joined(d, id) {
      assert L.RequestOk(d, id);
    }
  }

  lemma {:induction false} BatchStepCleans(d: Desk, candidates: seq<Id>, now: int, requestId: string)
    requires L.Inv(d)
    ensures L.Inv(ReconcileAll(d, candidates, now, requestId).desk)
    ensures candidates != [] ==>
      var n := |candidates| - 1;
      var before := ReconcileAll(d, candidates[..n], now, requestId).desk;
      Cleans(before, Reconcile(before, candidates[n], now, requestId), candidates[n], now)
  {
    if candidates != [] {
      var n := |candidates| - 1;
      BatchStepCleans(d, candidates[..n], now, requestId);
      var before := ReconcileAll(d, candidates[..n], now, requestId).desk;
      L.ReconcileKeeps(before, candidates[n], now, requestId);
      StaleIsCleaned(before, candidates[n], now, requestId);
    }
  }

  ghost function StaleAmong(d: Desk, candidates: seq<Id>, now: int): set<Id> {
    set id | id in candidates && IsStale(d, id, now)
  }

  lemma StaleOneMore(d: Desk, rest: seq<Id>, id: Id, now: int)
    ensures StaleAmong(d, rest + [id], now) ==
      if IsStale(d, id, now) then StaleAmong(d, rest, now) + {id} else StaleAmong(d, rest, now)
  {
  }

  /** One more step of a batch that has been cleaning so far. */
  lemma CleansOneMore(d: Desk, before: Desk, out: Outcome, rest: seq<Id>, id: Id, now: int)
    requires forall x :: IsStale(before, x, now) <==> IsStale(d, x, now) && x !in rest
    requires Cleans(before, out, id, now)
    ensures forall x :: IsStale(out.desk, x, now) <==> IsStale(d, x, now) && x !in rest + [id]
    ensures |StaleAmong(d, rest + [id], now)| == |StaleAmong(d, rest, now)| + if out.reply.StaleReleased? then 1 else 0
  {
    StaleOneMore(d, rest, id, now);
    forall x ensures IsStale(out.desk, x, now) <==> IsStale(d, x, now) && x !in rest + [id] {
      assert x in rest + [id] <==> x in rest || x == id;
    }
    if id in rest {
      assert !IsStale(before, id, now);
      assert StaleAmong(d, rest + [id], now) == StaleAmong(d, rest, now);
    }
  }

  /** A batch leaves none of its candidates stale, sends none to review, and releases each stale one once. */
  lemma {:induction false} BatchCleansUp(d: Desk, candidates: seq<Id>, now: int, requestId: string)
    requires L.Inv(d)
    ensures var b := ReconcileAll(d, candidates, now, requestId);
      && b.requiresReview == 0 && b.released == |StaleAmong(d, candidates, now)|
      && (forall id :: IsStale(b.desk, id, now) <==> IsStale(d, id, now) && id !in candidates)
  {
    if candidates == [] {
      assert StaleAmong(d, candidates, now) == {};
    } else {
      var n := |candidates| - 1;
      var id, rest := candidates[n], candidates[..n];
      BatchCleansUp(d, rest, now, requestId);
      BatchStepCleans(d, candidates, now, requestId);
      var before := ReconcileAll(d, rest, now, requestId).desk;
      assert candidates == rest + [id];
      CleansOneMore(d, before, Reconcile(before, id, now, requestId), rest, id, now);
    }
  }
}
