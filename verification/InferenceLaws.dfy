/** What every interleaving of inference operations keeps. */
module InferenceLaws {
  import opened Common
  import opened Inference
  import C = Credits
  import CL = CreditLaws

  // ----- Idempotency keys of one request never meet those of another -----

  const ENDING_SUFFIXES := [":settle", ":release", ":cancel-release", ":stale-release"]
  const LEDGER_SUFFIX := ":reserve:ledger"

  /** The keys under which a request's hold can end. */
  predicate IsEndingKey(id: Id, key: string) {
    key == SettleKey(id) || key == ReleaseKey(id) || key == CancelKey(id) || key == StaleKey(id)
  }

  /** The ledger keys that request `id` may write. */
  predicate IsKeyOf(id: Id, key: string) {
    key == Key(id, LEDGER_SUFFIX) || IsEndingKey(id, key)
  }

  /** Tells the suffixes apart from the right-hand end, so without looking at the id. */
  function SuffixOf(key: string): string
    requires |key| >= 10
  {
    var n := |key|;
    if key[n - 1] == 'r' then LEDGER_SUFFIX
    else if key[n - 2] == 'l' then ":settle"
    else if key[n - 8] == ':' then ":release"
    else if key[n - 9] == 'l' then ":cancel-release"
    else ":stale-release"
  }

  lemma KeyEnds(id: Id, suffix: string, i: nat)
    requires i < |suffix|
    ensures var key := Key(id, suffix); |suffix| <= |key| && key[|key| - 1 - i] == suffix[|suffix| - 1 - i]
  {
    var front := "client-ai:" + id;
    assert (front + suffix)[|front| + (|suffix| - 1 - i)] == suffix[|suffix| - 1 - i];
  }

  /** The three positions that tell the suffixes apart. */
  lemma SuffixIsRecovered(id: Id, suffix: string)
    requires suffix == LEDGER_SUFFIX || suffix in ENDING_SUFFIXES
    ensures SuffixOf(Key(id, suffix)) == suffix
  {
    KeyEnds(id, suffix, 0);
    KeyEnds(id, suffix, 1);
    if suffix != ":settle" {
      KeyEnds(id, suffix, 7);
      if suffix != ":release" {
        KeyEnds(id, suffix, 8);
      }
    }
  }

  lemma IdIsRecovered(a: Id, b: Id, suffix: string)
    requires Key(a, suffix) == Key(b, suffix)
    ensures a == b
  {
    var k := Key(a, suffix);
    assert a == k[10..|k| - |suffix|] && b == k[10..|k| - |suffix|];
  }

  /** A key tells which request wrote it and for what, whatever characters the ids contain. */
  lemma KeysIdentify(a: Id, s: string, b: Id, t: string)
    requires s == LEDGER_SUFFIX || s in ENDING_SUFFIXES
    requires t == LEDGER_SUFFIX || t in ENDING_SUFFIXES
    ensures Key(a, s) == Key(b, t) <==> a == b && s == t
  {
    SuffixIsRecovered(a, s);
    SuffixIsRecovered(b, t);
    if Key(a, s) == Key(b, t) {
      IdIsRecovered(a, b, s);
    }
  }

  lemma EndingKeyIdentifies(a: Id, b: Id, key: string)
    requires IsEndingKey(a, key) && IsKeyOf(b, key)
    ensures a == b && key != Key(b, LEDGER_SUFFIX)
  {
    hide SuffixOf, Key;
    var s :| s in ENDING_SUFFIXES && key == Key(a, s);
    if key == Key(b, LEDGER_SUFFIX) {
      KeysIdentify(a, s, b, LEDGER_SUFFIX);
    } else {
      var t :| t in ENDING_SUFFIXES && key == Key(b, t);
      KeysIdentify(a, s, b, t);
    }
  }

  lemma LedgerKeyShape(id: Id)
    ensures ReserveKey(id) + ":ledger" == Key(id, LEDGER_SUFFIX)
  {
    assert ":reserve" + ":ledger" == LEDGER_SUFFIX;
    assert ReserveKey(id) + ":ledger" == "client-ai:" + id + (":reserve" + ":ledger");
  }

  // ----- The invariant -----

  predicate Corresponds(request: Status, hold: C.Status) {
    match request
    case Processing => hold == C.Reserved
    case Succeeded => hold == C.Settled
    case Failed => hold == C.Released
  }

  /** A request owns one reservation, in the state that goes with its own. */
  ghost predicate RequestOk(d: Desk, id: Id)
    requires id in d.requests
  {
    var row := d.requests[id];
    && Joined(d, id)
    && var hold := d.book.reservations[row.reservation.value];
    && hold.user == row.user && hold.key == ReserveKey(id)
    && Corresponds(row.status, hold.status)
    && (row.failure.Some? <==> row.status == Failed)
    && (row.usageId.Some? <==> row.status == Succeeded)
  }

  ghost predicate IndexInv(d: Desk) {
    && (forall id :: id in d.requests ==>
          var r := d.requests[id];
          (r.user, r.operation, r.key) in d.byKey && d.byKey[(r.user, r.operation, r.key)] == id)
    && (forall k :: k in d.byKey ==>
          && d.byKey[k] in d.requests
          && var r := d.requests[d.byKey[k]]; (r.user, r.operation, r.key) == k)
  }

  /** No provider request is charged to two inference requests of one model revision. */
  ghost predicate UsageInv(d: Desk) {
    forall i, j :: i in d.requests && j in d.requests && i != j && d.requests[i].usageId.Some? ==>
      d.requests[i].usageId != d.requests[j].usageId || d.requests[i].model != d.requests[j].model
  }

  ghost predicate OwnedKey(d: Desk, m: C.Mutation) {
    exists id :: id in d.requests && d.requests[id].reservation == m.reservation && m.reservation.Some?
      && IsKeyOf(id, m.key)
  }

  /** Ledger rows under the service's key prefix belong to one of its requests. */
  ghost predicate KeysInv(d: Desk) {
    forall i :: 0 <= i < |d.book.ledger| && "client-ai:" <= d.book.ledger[i].mutation.key ==>
      OwnedKey(d, d.book.ledger[i].mutation)
  }

  /** A hold under this service's key belongs to a request. */
  ghost predicate HoldsInv(d: Desk) {
    forall id :: ReserveKey(id) in d.book.byKey ==> id in d.requests
  }

  ghost predicate RequestsInv(d: Desk) {
    forall id :: id in d.requests ==> RequestOk(d, id)
  }

  ghost predicate Inv(d: Desk) {
    CL.Inv(d.book) && RequestsInv(d) && HoldsInv(d) && IndexInv(d) && UsageInv(d) && KeysInv(d)
  }

  // ----- One ending -----

  /** One processing request of `d` has ended in `next`, as has its hold; nothing else changed. */
  ghost predicate Ends(d: Desk, next: Desk, id: Id, row: Request, hold: C.Reservation) {
    && id in d.requests && d.requests[id].status == Processing && Joined(d, id)
    && row.reservation == d.requests[id].reservation
    && row == d.requests[id].(status := row.status, result := row.result, failure := row.failure,
                              usageId := row.usageId)
    && (var was := d.book.reservations[row.reservation.value];
        hold == was.(status := hold.status, settled := hold.settled))
    && row.status != Processing && Corresponds(row.status, hold.status)
    && (row.failure.Some? <==> row.status == Failed)
    && (row.usageId.Some? <==> row.status == Succeeded)
    && next.requests == d.requests[id := row] && next.byKey == d.byKey
    && next.book.reservations == d.book.reservations[row.reservation.value := hold]
    && next.book.byKey == d.book.byKey
  }

  lemma EndKeepsRequests(d: Desk, next: Desk, id: Id, row: Request, hold: C.Reservation)
    requires RequestsInv(d) && Ends(d, next, id, row, hold)
    ensures RequestsInv(next)
  {
    assert RequestOk(d, id);
    forall other | other in next.requests ensures RequestOk(next, other) {
      assert RequestOk(d, other);
      if other != id && d.requests[other].reservation == row.reservation {
        IdIsRecovered(other, id, ":reserve");
      }
    }
  }

  lemma EndKeepsIndex(d: Desk, next: Desk, id: Id, row: Request, hold: C.Reservation)
    requires IndexInv(d) && Ends(d, next, id, row, hold)
    ensures IndexInv(next)
  {
  }

  lemma EndKeepsUsage(d: Desk, next: Desk, id: Id, row: Request, hold: C.Reservation)
    requires UsageInv(d) && Ends(d, next, id, row, hold)
    requires row.usageId.Some? ==> !ProviderRequestTaken(d, row.model, row.usageId.value)
    ensures UsageInv(next)
  {
  }

  /** Every request keeps its reservation, so old rows keep their owners. */
  lemma RowKeepsKeys(d: Desk, next: Desk)
    requires KeysInv(d)
    requires forall id :: id in d.requests ==>
      id in next.requests && next.requests[id].reservation == d.requests[id].reservation
    requires |next.book.ledger| == |d.book.ledger| + 1 && next.book.ledger[..|d.book.ledger|] == d.book.ledger
    requires "client-ai:" <= next.book.ledger[|d.book.ledger|].mutation.key ==>
      OwnedKey(next, next.book.ledger[|d.book.ledger|].mutation)
    ensures KeysInv(next)
  {
    forall i | 0 <= i < |next.book.ledger| && "client-ai:" <= next.book.ledger[i].mutation.key
      ensures OwnedKey(next, next.book.ledger[i].mutation)
    {
      if i < |d.book.ledger| {
        var m := next.book.ledger[i].mutation;
        assert m == d.book.ledger[i].mutation;
        assert OwnedKey(d, m);
        var owner :| owner in d.requests && d.requests[owner].reservation == m.reservation && IsKeyOf(owner, m.key);
        assert next.requests[owner].reservation == m.reservation;
      }
    }
  }

  /** Ends one processing request together with its hold; the other requests are untouched. */
  lemma EndKeeps(d: Desk, next: Desk, id: Id, row: Request, hold: C.Reservation)
    requires RequestsInv(d) && HoldsInv(d) && IndexInv(d) && UsageInv(d) && KeysInv(d)
    requires Ends(d, next, id, row, hold)
    requires row.usageId.Some? ==> !ProviderRequestTaken(d, row.model, row.usageId.value)
    requires |next.book.ledger| == |d.book.ledger| + 1 && next.book.ledger[..|d.book.ledger|] == d.book.ledger
    requires next.book.ledger[|d.book.ledger|].mutation.reservation == row.reservation
    requires IsEndingKey(id, next.book.ledger[|d.book.ledger|].mutation.key)
    ensures RequestsInv(next) && HoldsInv(next) && IndexInv(next) && UsageInv(next) && KeysInv(next)
  {
    EndKeepsRequests(d, next, id, row, hold);
    EndKeepsIndex(d, next, id, row, hold);
    EndKeepsUsage(d, next, id, row, hold);
    assert KeysInv(next) by {
      assert next.requests[id].reservation == next.book.ledger[|d.book.ledger|].mutation.reservation;
      RowKeepsKeys(d, next);
    }
  }

  /** Releasing the hold of a processing request and failing it. */
  lemma ReleaseKeeps(d: Desk, id: Id, r: C.ReleaseInput, f: Failure)
    requires Inv(d) && id in d.requests && d.requests[id].status == Processing
    requires d.requests[id].reservation == Some(r.reservation) && IsEndingKey(id, r.key)
    requires C.Free(d.book, r).Ok?
    ensures Inv(Close(d, C.Free(d.book, r).book, id, f))
  {
    assert RequestOk(d, id);
    CL.FreeEffect(d.book, r);
    CL.FreeKeeps(d.book, r);
    var next := Close(d, C.Free(d.book, r).book, id, f);
    EndKeeps(d, next, id, next.requests[id], next.book.reservations[r.reservation]);
  }

  /** A completion that changes anything charges the hold and ends the request. */
  lemma CompleteShape(d: Desk, x: CompleteInput)
    requires Complete(d, x).desk != d
    ensures x.request in d.requests && d.requests[x.request].status == Processing
    ensures d.requests[x.request].reservation == Some(x.reservation) && C.Charge(d.book, SettleOf(x)).Ok?
    ensures !ProviderRequestTaken(d, d.requests[x.request].model, x.usageId)
    ensures Complete(d, x).reply == Completed(x.result)
    ensures var row := d.requests[x.request];
      Complete(d, x).desk ==
        d.(book := C.Charge(d.book, SettleOf(x)).book,
           requests := d.requests[x.request :=
             row.(status := Succeeded, result := x.result, usageId := Some(x.usageId))])
  {
    hide C.Charge, ProviderRequestTaken, SettleOf, Replay;
  }

  lemma CompleteKeeps(d: Desk, x: CompleteInput)
    requires Inv(d)
    ensures Inv(Complete(d, x).desk)
  {
    hide Complete, C.Charge, CL.LedgerInv, CL.SumsInv, ProviderRequestTaken;
    var next := Complete(d, x).desk;
    if next != d {
      CompleteShape(d, x);
      assert RequestOk(d, x.request);
      CL.ChargeEffect(d.book, SettleOf(x));
      CL.ChargeKeeps(d.book, SettleOf(x));
      EndKeeps(d, next, x.request, next.requests[x.request], next.book.reservations[x.reservation]);
    }
  }

  lemma FailKeeps(d: Desk, x: FailInput)
    requires Inv(d)
    ensures Inv(Fail(d, x).desk)
  {
    if Fail(d, x).desk != d {
      ReleaseKeeps(d, x.request, C.ReleaseInput(x.reservation, ReleaseKey(x.request), x.requestId, None), FailureOf(x));
    }
  }

  lemma CancelKeeps(d: Desk, user: Id, requested: Id, requestId: string)
    requires Inv(d)
    ensures Inv(Cancel(d, user, requested, requestId).desk)
  {
    var id := Trim(requested);
    if Cancel(d, user, requested, requestId).desk != d {
      assert RequestOk(d, id);
      ReleaseKeeps(d, id, C.ReleaseInput(d.requests[id].reservation.value, CancelKey(id), requestId, None),
                   Failure(CANCEL_CODE, "cancelled by the user", 409));
    }
  }

  lemma ReconcileKeeps(d: Desk, id: Id, now: int, requestId: string)
    requires Inv(d)
    ensures Inv(Reconcile(d, id, now, requestId).desk)
  {
    if Reconcile(d, id, now, requestId).desk != d {
      assert RequestOk(d, id);
      ReleaseKeeps(d, id, C.ReleaseInput(d.requests[id].reservation.value, StaleKey(id), requestId, None),
                   Failure("AI_REQUEST_STALE_RELEASED", "interrupted", 409));
    }
  }

  // ----- A new request -----

  /** A request that starts is one more row over the book of its hold. */
  lemma BeginShape(d: Desk, x: BeginInput, newId: Id, newReservation: Id, now: int)
    requires HoldsInv(d) && Begin(d, x, newId, newReservation, now).reply.Started?
    ensures var r, next := HoldInput(x, newId, now), Begin(d, x, newId, newReservation, now).desk;
      && newId !in d.requests && (x.user, x.operation, x.key) !in d.byKey && r.key !in d.book.byKey
      && C.Hold(d.book, r, newReservation).Ok? && next.book == C.Hold(d.book, r, newReservation).book
      && (C.Hold(d.book, r, newReservation).reply == C.Held(newReservation, true) ==>
           next.requests == d.requests[newId := NewRequest(x, newReservation)])
      && next.byKey == d.byKey[(x.user, x.operation, x.key) := newId]
  {
  }

  lemma BeginStarts(d: Desk, x: BeginInput, newId: Id, newReservation: Id, now: int)
    requires CL.Inv(d.book) && HoldsInv(d) && Begin(d, x, newId, newReservation, now).reply.Started?
    ensures var next := Begin(d, x, newId, newReservation, now).desk;
      && Starts(d, next, newId, newReservation, x) && CL.Inv(next.book)
      && |next.book.ledger| == |d.book.ledger| + 1 && next.book.ledger[..|d.book.ledger|] == d.book.ledger
      && next.book.ledger[|d.book.ledger|].mutation == C.ReserveMutation(HoldInput(x, newId, now), newReservation)
  {
    BeginShape(d, x, newId, newReservation, now);
    CL.HoldEffect(d.book, HoldInput(x, newId, now), newReservation);
    CL.HoldKeeps(d.book, HoldInput(x, newId, now), newReservation);
  }

  lemma StartKeepsKeys(d: Desk, next: Desk, id: Id, rid: Id, x: BeginInput, now: int)
    requires KeysInv(d) && Starts(d, next, id, rid, x)
    requires |next.book.ledger| == |d.book.ledger| + 1 && next.book.ledger[..|d.book.ledger|] == d.book.ledger
    requires next.book.ledger[|d.book.ledger|].mutation == C.ReserveMutation(HoldInput(x, id, now), rid)
    ensures KeysInv(next)
  {
    LedgerKeyShape(id);
    assert next.requests[id].reservation == Some(rid);
    RowKeepsKeys(d, next);
  }

  lemma BeginKeeps(d: Desk, x: BeginInput, newId: Id, newReservation: Id, now: int)
    requires Inv(d)
    ensures Inv(Begin(d, x, newId, newReservation, now).desk)
  {
    if Begin(d, x, newId, newReservation, now).reply.Started? {
      var next := Begin(d, x, newId, newReservation, now).desk;
      BeginStarts(d, x, newId, newReservation, now);
      StartKeepsRequests(d, next, newId, newReservation, x);
      StartKeepsHolds(d, next, newId, newReservation, x);
      StartKeepsIndex(d, next, newId, newReservation, x);
      StartKeepsKeys(d, next, newId, newReservation, x, now);
    }
  }

  /** `next` holds one more request than `d`, with a reservation of its own. */
  ghost predicate Starts(d: Desk, next: Desk, id: Id, rid: Id, x: BeginInput) {
    && id !in d.requests && (x.user, x.operation, x.key) !in d.byKey && rid !in d.book.reservations
    && next.requests == d.requests[id := NewRequest(x, rid)]
    && next.byKey == d.byKey[(x.user, x.operation, x.key) := id]
    && rid in next.book.reservations
    && next.book.reservations == d.book.reservations[rid := next.book.reservations[rid]]
    && next.book.byKey == d.book.byKey[ReserveKey(id) := rid]
    && var hold := next.book.reservations[rid];
    && hold.user == x.user && hold.key == ReserveKey(id) && hold.status == C.Reserved
  }

  lemma StartKeepsRequests(d: Desk, next: Desk, id: Id, rid: Id, x: BeginInput)
    requires RequestsInv(d) && Starts(d, next, id, rid, x)
    ensures RequestsInv(next)
  {
    forall other | other in next.requests ensures RequestOk(next, other) {
      if other != id {
        assert RequestOk(d, other);
      }
    }
  }

  lemma StartKeepsHolds(d: Desk, next: Desk, id: Id, rid: Id, x: BeginInput)
    requires HoldsInv(d) && Starts(d, next, id, rid, x)
    ensures HoldsInv(next)
  {
    forall other | ReserveKey(other) in next.book.byKey ensures other in next.requests {
      if ReserveKey(other) == ReserveKey(id) {
        IdIsRecovered(other, id, ":reserve");
      }
    }
  }

  lemma StartKeepsIndex(d: Desk, next: Desk, id: Id, rid: Id, x: BeginInput)
    requires IndexInv(d) && UsageInv(d) && Starts(d, next, id, rid, x)
    ensures IndexInv(next) && UsageInv(next)
  {
  }

  // ----- Every step -----

  /** The reservations of requests, and the index entries under this service's keys, are in both books the same. */
  ghost predicate Spares(d: Desk, book: C.Book) {
    && (forall id :: Joined(d, id) ==>
         var rid := d.requests[id].reservation.value;
         rid in book.reservations && book.reservations[rid] == d.book.reservations[rid])
    && (forall id :: ReserveKey(id) in book.byKey ==> ReserveKey(id) in d.book.byKey)
  }

  /** The ledger has grown by nothing, or by one row outside this service's key space. */
  predicate GrowsOutside(ledger: seq<C.Entry>, later: seq<C.Entry>) {
    || later == ledger
    || (|later| == |ledger| + 1 && later[..|ledger|] == ledger && !(PREFIX <= later[|ledger|].mutation.key))
  }

  lemma ForeignHoldEffect(d: Desk, r: C.ReserveInput, newId: Id)
    requires IsForeign(d, C.ReserveStep(r, newId)) && CL.Inv(d.book) && C.Hold(d.book, r, newId).Ok?
    ensures var book := C.Hold(d.book, r, newId).book; Spares(d, book) && GrowsOutside(d.book.ledger, book.ledger)
  {
    if r.key !in d.book.byKey {
      CL.HoldEffect(d.book, r, newId);
      forall id ensures ReserveKey(id) != r.key {
        assert PREFIX <= ReserveKey(id);
      }
    }
  }

  lemma ForeignEndingEffect(d: Desk, s: C.Step)
    requires (s.SettleStep? || s.ReleaseStep?) && IsForeign(d, s) && CL.Inv(d.book)
    ensures var book := C.Next(d.book, s); Spares(d, book) && GrowsOutside(d.book.ledger, book.ledger)
  {
    var rid := if s.SettleStep? then s.settle.reservation else s.release.reservation;
    if C.Exec(d.book, s).Ok? && d.book.reservations[rid].status == C.Reserved {
      if s.SettleStep? {
        CL.ChargeEffect(d.book, s.settle);
      } else {
        CL.FreeEffect(d.book, s.release);
      }
      assert forall id :: Joined(d, id) ==> d.requests[id].reservation.value != rid;
    }
  }

  /** Whatever others do posts at most one row, outside this service's key space, and spares its reservations. */
  lemma ForeignEffect(d: Desk, s: C.Step)
    requires IsForeign(d, s) && CL.Inv(d.book)
    ensures var book := C.Next(d.book, s); Spares(d, book) && GrowsOutside(d.book.ledger, book.ledger)
  {
    match s
    case GrantStep(_) =>
    case ReserveStep(r, newId) =>
      if C.Hold(d.book, r, newId).Ok? {
        ForeignHoldEffect(d, r, newId);
      }
    case AdjustStep(a) => assert C.AdjustMutation(a).key[1] == 'r';
    case _ => ForeignEndingEffect(d, s);
  }

  lemma ForeignKeeps(d: Desk, s: C.Step)
    requires Inv(d) && IsForeign(d, s)
    ensures Inv(d.(book := C.Next(d.book, s)))
  {
    var book := C.Next(d.book, s);
    assert CL.Inv(book) by {
      CL.ExecKeepsInv(d.book, s);
    }
    ForeignEffect(d, s);
    BookKeeps(d, d.(book := book));
  }

  /** A change of the book that spares the requests leaves everything said about them true. */
  lemma BookKeeps(d: Desk, next: Desk)
    requires RequestsInv(d) && HoldsInv(d) && IndexInv(d) && UsageInv(d) && KeysInv(d)
    requires next == d.(book := next.book)
    requires Spares(d, next.book) && GrowsOutside(d.book.ledger, next.book.ledger)
    ensures RequestsInv(next) && HoldsInv(next) && IndexInv(next) && UsageInv(next) && KeysInv(next)
  {
    assert RequestsInv(next) by {
      forall id | id in next.requests ensures RequestOk(next, id) {
        assert RequestOk(d, id);
      }
    }
    assert KeysInv(next) by {
      if next.book.ledger == d.book.ledger {
        forall i | 0 <= i < |next.book.ledger| && "client-ai:" <= next.book.ledger[i].mutation.key
          ensures OwnedKey(next, next.book.ledger[i].mutation)
        {
          assert OwnedKey(d, d.book.ledger[i].mutation);
        }
      } else {
        RowKeepsKeys(d, next);
      }
    }
  }

  lemma ReadKeeps(d: Desk, x: ReadInput, now: int)
    requires Inv(d)
    ensures Inv(ReadReplay(d, x, now).desk)
  {
    if ReadReplay(d, x, now).desk != d {
      var id := d.byKey[(x.user, x.operation, x.key)];
      ReconcileKeeps(d, id, now, "client-ai:" + id + ":replay-reconcile");
    }
  }

  lemma ForeignStepKeeps(d: Desk, c: C.Step)
    requires Inv(d)
    ensures Inv(Next(d, ForeignStep(c)))
  {
    if IsForeign(d, c) {
      ForeignKeeps(d, c);
    }
  }

  lemma ExecKeepsInv(d: Desk, s: Step)
    requires Inv(d)
    ensures Inv(Next(d, s))
  {
    hide Next, Inv;
    match s
    case BeginStep(x, newId, newReservation, now) =>
      NextBegin(d, x, newId, newReservation, now);
      BeginKeeps(d, x, newId, newReservation, now);
    case CompleteStep(x) =>
      NextComplete(d, x);
      CompleteKeeps(d, x);
    case FailStep(x) =>
      NextFail(d, x);
      FailKeeps(d, x);
    case CancelStep(user, id, requestId) =>
      NextCancel(d, user, id, requestId);
      CancelKeeps(d, user, id, requestId);
    case ReconcileStep(id, now, requestId) =>
      NextReconcile(d, id, now, requestId);
      ReconcileKeeps(d, id, now, requestId);
    case ReadStep(x, now) =>
      NextRead(d, x, now);
      ReadKeeps(d, x, now);
    case ForeignStep(c) => ForeignStepKeeps(d, c);
  }

  lemma {:induction false} RunKeepsInv(d: Desk, steps: seq<Step>)
    requires Inv(d)
    ensures Inv(Run(d, steps))
    decreases |steps|
  {
    if steps != [] {
      ExecKeepsInv(d, steps[0]);
      RunKeepsInv(Next(d, steps[0]), steps[1..]);
    }
  }

  lemma EmptyDeskInv()
    ensures Inv(EMPTY_DESK)
  {
    CL.EmptyBookInv();
  }

  // ----- One terminal outcome, charged once -----

  /** A request keeps its identity, and everything once it is terminal. */
  predicate Continues(r: Request, later: Request) {
    && later == r.(status := later.status, result := later.result, failure := later.failure, usageId := later.usageId)
    && (r.status != Processing ==> later == r)
  }

  ghost predicate Extends(d: Desk, later: Desk) {
    && (forall id :: id in d.requests ==> id in later.requests && Continues(d.requests[id], later.requests[id]))
    && (forall k :: k in d.byKey ==> k in later.byKey && later.byKey[k] == d.byKey[k])
    && CL.Extends(d.book, later.book)
  }

  lemma FreeExtends(b: C.Book, r: C.ReleaseInput)
    requires CL.IndexOk(b)
    ensures CL.Extends(b, b) && (C.Free(b, r).Ok? ==> CL.Extends(b, C.Free(b, r).book))
  {
    CL.ExecExtends(b, C.ReleaseStep(r));
  }

  lemma HoldExtends(b: C.Book, r: C.ReserveInput, newId: Id)
    requires CL.IndexOk(b)
    ensures CL.Extends(b, b) && (C.Hold(b, r, newId).Ok? ==> CL.Extends(b, C.Hold(b, r, newId).book))
  {
    CL.ExecExtends(b, C.ReserveStep(r, newId));
  }

  lemma ChargeExtends(b: C.Book, x: C.SettleInput)
    requires CL.IndexOk(b)
    ensures CL.Extends(b, b) && (C.Charge(b, x).Ok? ==> CL.Extends(b, C.Charge(b, x).book))
  {
    CL.ExecExtends(b, C.SettleStep(x));
  }

  /** A new or an ended request over a book that extends the old one. */
  lemma RowExtends(d: Desk, later: Desk, id: Id)
    requires CL.Extends(d.book, later.book)
    requires id in later.requests && later.requests == d.requests[id := later.requests[id]]
    requires id in d.requests ==> Continues(d.requests[id], later.requests[id])
    requires forall k :: k in d.byKey ==> k in later.byKey && later.byKey[k] == d.byKey[k]
    ensures Extends(d, later)
  {
  }

  lemma BeginExtends(d: Desk, x: BeginInput, newId: Id, newReservation: Id, now: int)
    requires CL.IndexOk(d.book)
    ensures Extends(d, Begin(d, x, newId, newReservation, now).desk)
  {
    hide C.Hold, IsIdempotencyKey, CL.Extends, CL.IndexOk;
    HoldExtends(d.book, HoldInput(x, newId, now), newReservation);
    if Begin(d, x, newId, newReservation, now).reply.Started? {
      RowExtends(d, Begin(d, x, newId, newReservation, now).desk, newId);
    }
  }

  lemma CompleteExtends(d: Desk, x: CompleteInput)
    requires CL.IndexOk(d.book)
    ensures Extends(d, Complete(d, x).desk)
  {
    hide Complete, C.Charge, CL.Extends;
    ChargeExtends(d.book, SettleOf(x));
    if Complete(d, x).desk != d {
      CompleteShape(d, x);
      RowExtends(d, Complete(d, x).desk, x.request);
    }
  }

  lemma FailExtends(d: Desk, x: FailInput)
    requires CL.IndexOk(d.book)
    ensures Extends(d, Fail(d, x).desk)
  {
    hide C.Free, FailureOf, CL.Extends, CL.IndexOk;
    FreeExtends(d.book, C.ReleaseInput(x.reservation, ReleaseKey(x.request), x.requestId, None));
  }

  lemma CancelExtends(d: Desk, user: Id, requested: Id, requestId: string)
    requires CL.IndexOk(d.book)
    ensures Extends(d, Cancel(d, user, requested, requestId).desk)
  {
    hide C.Free, IsUuid, CL.IndexOk;
    var id := Trim(requested);
    if Joined(d, id) {
      FreeExtends(d.book, C.ReleaseInput(d.requests[id].reservation.value, CancelKey(id), requestId, None));
    }
  }

  lemma ReconcileExtends(d: Desk, id: Id, now: int, requestId: string)
    requires CL.IndexOk(d.book)
    ensures Extends(d, Reconcile(d, id, now, requestId).desk)
  {
    hide C.Free, CL.IndexOk;
    if Joined(d, id) {
      FreeExtends(d.book, C.ReleaseInput(d.requests[id].reservation.value, StaleKey(id), requestId, None));
    }
  }

  lemma ReadExtends(d: Desk, x: ReadInput, now: int)
    requires CL.IndexOk(d.book)
    ensures Extends(d, ReadReplay(d, x, now).desk)
  {
    hide Reconcile, CL.IndexOk;
    var index := (x.user, x.operation, x.key);
    if index in d.byKey {
      ReconcileExtends(d, d.byKey[index], now, "client-ai:" + d.byKey[index] + ":replay-reconcile");
    }
  }

  lemma ForeignExtends(d: Desk, c: C.Step)
    requires CL.IndexOk(d.book)
    ensures Extends(d, Next(d, ForeignStep(c)))
  {
    CL.ExecExtends(d.book, c);
  }

  lemma ExecExtends(d: Desk, s: Step)
    requires CL.IndexOk(d.book)
    ensures Extends(d, Next(d, s))
  {
    hide Next, Extends, CL.IndexOk;
    match s
    case BeginStep(x, newId, newReservation, now) =>
      NextBegin(d, x, newId, newReservation, now);
      BeginExtends(d, x, newId, newReservation, now);
    case CompleteStep(x) =>
      NextComplete(d, x);
      CompleteExtends(d, x);
    case FailStep(x) =>
      NextFail(d, x);
      FailExtends(d, x);
    case CancelStep(user, id, requestId) =>
      NextCancel(d, user, id, requestId);
      CancelExtends(d, user, id, requestId);
    case ReconcileStep(id, now, requestId) =>
      NextReconcile(d, id, now, requestId);
      ReconcileExtends(d, id, now, requestId);
    case ReadStep(x, now) =>
      NextRead(d, x, now);
      ReadExtends(d, x, now);
    case ForeignStep(c) => ForeignExtends(d, c);
  }

  lemma ExtendsTransitive(a: Desk, b: Desk, c: Desk)
    requires Extends(a, b) && Extends(b, c)
    ensures Extends(a, c)
  {
    forall id | id in a.requests ensures id in c.requests && Continues(a.requests[id], c.requests[id]) {
      assert Continues(a.requests[id], b.requests[id]) && Continues(b.requests[id], c.requests[id]);
    }
    forall id | id in a.book.reservations
      ensures id in c.book.reservations && CL.Continues(a.book.reservations[id], c.book.reservations[id])
    {
      assert CL.Continues(a.book.reservations[id], b.book.reservations[id]);
      assert CL.Continues(b.book.reservations[id], c.book.reservations[id]);
    }
  }

  lemma InvExtends(d: Desk, s: Step)
    requires Inv(d)
    ensures Extends(d, Next(d, s))
  {
    hide Next, Extends;
    ExecExtends(d, s);
  }

  lemma {:induction false} RunExtends(d: Desk, steps: seq<Step>)
    requires Inv(d)
    ensures Extends(d, Run(d, steps))
    decreases |steps|
  {
    hide Inv, Next;
    if steps != [] {
      InvExtends(d, steps[0]);
      ExecKeepsInv(d, steps[0]);
      RunExtends(Next(d, steps[0]), steps[1..]);
      ExtendsTransitive(d, Next(d, steps[0]), Run(d, steps));
    }
  }

  /** The hold of a request mirrors its state, and the ledger charges it that hold's settlement or nothing. */
  ghost predicate ChargedOnce(d: Desk, id: Id) {
    && Joined(d, id)
    && var row, rid := d.requests[id], d.requests[id].reservation.value;
    && var hold, ledger := d.book.reservations[rid], d.book.ledger;
    && Corresponds(row.status, hold.status)
    && (row.status == Succeeded <==> hold.settled.Some?)
    && C.NetCharge(ledger, rid) == (if hold.settled.Some? then hold.settled.value else 0)
    && 0 <= C.NetCharge(ledger, rid) <= hold.estimated
    && C.Rows(ledger, C.Settle, rid) == (if row.status == Succeeded then 1 else 0)
    && C.Rows(ledger, C.Release, rid) == (if row.status == Failed then 1 else 0)
    && (forall other :: other in d.requests && d.requests[other].reservation == row.reservation ==> other == id)
  }

  lemma InvChargesOnce(d: Desk, id: Id)
    requires CL.RowsInv(d.book) && RequestsInv(d) && id in d.requests
    ensures ChargedOnce(d, id)
  {
    assert RequestOk(d, id);
    CL.RowsOfReservation(d.book, d.requests[id].reservation.value);
    forall other | other in d.requests && d.requests[other].reservation == d.requests[id].reservation
      ensures other == id
    {
      assert RequestOk(d, other);
      IdIsRecovered(other, id, ":reserve");
    }
  }

  /**
   * In every interleaving: the reservation of each request is in the state that goes with the request's own,
   * no other request shares it, its ledger charge is the settled cost or nothing, and a terminal outcome is final.
   */
  lemma OneOutcomeChargedOnce(before: seq<Step>, after: seq<Step>, id: Id)
    requires id in Run(EMPTY_DESK, before).requests
    ensures var d := Run(EMPTY_DESK, before);
      var later := Run(d, after);
      && ChargedOnce(d, id) && ChargedOnce(later, id)
      && (d.requests[id].status != Processing ==> later.requests[id] == d.requests[id])
      && later.requests[id].reservation == d.requests[id].reservation
  {
    hide CL.RowsInv, CL.LedgerInv, CL.SumsInv, RequestsInv, HoldsInv, IndexInv, UsageInv, KeysInv, ChargedOnce, Next;
    var d := Run(EMPTY_DESK, before);
    EmptyDeskInv();
    RunKeepsInv(EMPTY_DESK, before);
    RunKeepsInv(d, after);
    RunExtends(d, after);
    assert Continues(d.requests[id], Run(d, after).requests[id]);
    InvChargesOnce(d, id);
    InvChargesOnce(Run(d, after), id);
  }

  /** One metered provider request pays for at most one inference request of a model revision. */
  lemma UsageChargedOnce(steps: seq<Step>, i: Id, j: Id)
    requires var d := Run(EMPTY_DESK, steps);
      && i in d.requests && j in d.requests && d.requests[i].status == Succeeded && d.requests[j].status == Succeeded
      && d.requests[i].model == d.requests[j].model && d.requests[i].usageId == d.requests[j].usageId
    ensures i == j
  {
    EmptyDeskInv();
    RunKeepsInv(EMPTY_DESK, steps);
    assert RequestOk(Run(EMPTY_DESK, steps), i);
  }

  // ----- The review branches -----

  predicate UnderReview(d: Desk, id: Id) {
    id in d.requests && d.requests[id].failure.Some? && d.requests[id].failure.value.code == REVIEW_CODE
  }

  /** A fail call with the review code, which is carried out and so stores it. */
  predicate DeclaresReview(d: Desk, s: Step, id: Id) {
    && s.FailStep? && s.fail.request == id && FailureOf(s.fail).code == REVIEW_CODE
    && Exec(d, s).reply == FailRecorded(true)
  }

  /** Some step of the run did so when its turn came. */
  ghost predicate DeclaredIn(d: Desk, steps: seq<Step>, id: Id) {
    exists i :: 0 <= i < |steps| && DeclaresReview(Run(d, steps[..i]), steps[i], id)
  }

  lemma CodesDiffer()
    ensures REVIEW_CODE != CANCEL_CODE && REVIEW_CODE != "AI_REQUEST_STALE_RELEASED"
  {
    assert REVIEW_CODE[5] == 'C' && CANCEL_CODE[5] == 'Q' && "AI_REQUEST_STALE_RELEASED"[5] == 'Q';
  }

  lemma CancelDeclares(d: Desk, user: Id, requested: Id, requestId: string, id: Id)
    requires RequestsInv(d) && UnderReview(Cancel(d, user, requested, requestId).desk, id)
    ensures UnderReview(d, id)
  {
    if Trim(requested) in d.requests {
      assert RequestOk(d, Trim(requested));
    }
    CodesDiffer();
  }

  lemma ReconcileDeclares(d: Desk, request: Id, now: int, requestId: string, id: Id)
    requires RequestsInv(d) && UnderReview(Reconcile(d, request, now, requestId).desk, id)
    ensures UnderReview(d, id)
  {
    if request in d.requests {
      assert RequestOk(d, request);
    }
    CodesDiffer();
  }

  lemma BeginDeclares(d: Desk, x: BeginInput, newId: Id, newReservation: Id, now: int, id: Id)
    requires UnderReview(Begin(d, x, newId, newReservation, now).desk, id)
    ensures UnderReview(d, id)
  {
    hide C.Hold, IsIdempotencyKey, HoldInput;
  }

  lemma CompleteDeclares(d: Desk, x: CompleteInput, id: Id)
    requires UnderReview(Complete(d, x).desk, id)
    ensures UnderReview(d, id)
  {
    hide Complete;
    if Complete(d, x).desk != d {
      CompleteShape(d, x);
    }
  }

  lemma FailDeclares(d: Desk, x: FailInput, id: Id)
    requires UnderReview(Fail(d, x).desk, id)
    ensures UnderReview(d, id) || DeclaresReview(d, FailStep(x), id)
  {
    hide C.Free, FailureOf;
  }

  lemma ReadDeclares(d: Desk, x: ReadInput, now: int, id: Id)
    requires RequestsInv(d) && UnderReview(ReadReplay(d, x, now).desk, id)
    ensures UnderReview(d, id)
  {
    hide Reconcile, UnderReview, RequestsInv;
    if ReadReplay(d, x, now).desk != d {
      var request := d.byKey[(x.user, x.operation, x.key)];
      ReconcileDeclares(d, request, now, "client-ai:" + request + ":replay-reconcile", id);
    }
  }

  lemma ForeignDeclares(d: Desk, c: C.Step, id: Id)
    requires UnderReview(Next(d, ForeignStep(c)), id)
    ensures UnderReview(d, id)
  {
    hide IsForeign, C.Exec, Begin, Complete, Fail, Cancel, Reconcile, ReadReplay;
  }

  lemma ExecDeclares(d: Desk, s: Step, id: Id)
    requires RequestsInv(d) && UnderReview(Next(d, s), id)
    ensures UnderReview(d, id) || DeclaresReview(d, s, id)
  {
    hide Next, UnderReview, DeclaresReview, RequestsInv;
    match s
    case BeginStep(x, newId, newReservation, now) =>
      NextBegin(d, x, newId, newReservation, now);
      BeginDeclares(d, x, newId, newReservation, now, id);
    case CompleteStep(x) =>
      NextComplete(d, x);
      CompleteDeclares(d, x, id);
    case FailStep(x) =>
      NextFail(d, x);
      FailDeclares(d, x, id);
    case CancelStep(user, requested, requestId) =>
      NextCancel(d, user, requested, requestId);
      CancelDeclares(d, user, requested, requestId, id);
    case ReconcileStep(request, now, requestId) =>
      NextReconcile(d, request, now, requestId);
      ReconcileDeclares(d, request, now, requestId, id);
    case ReadStep(x, now) =>
      NextRead(d, x, now);
      ReadDeclares(d, x, now, id);
    case ForeignStep(c) => ForeignDeclares(d, c, id);
  }

  lemma {:induction false} RunSplits(d: Desk, steps: seq<Step>, n: nat)
    requires 0 < n <= |steps|
    ensures Run(d, steps[..n]) == Run(Next(d, steps[0]), steps[1..][..n - 1])
  {
    assert steps[..n][1..] == steps[1..][..n - 1];
  }

  lemma DeclaredLater(d: Desk, steps: seq<Step>, id: Id)
    requires steps != [] && DeclaredIn(Next(d, steps[0]), steps[1..], id)
    ensures DeclaredIn(d, steps, id)
  {
    hide Next, DeclaresReview;
    var rest := steps[1..];
    var i :| 0 <= i < |rest| && DeclaresReview(Run(Next(d, steps[0]), rest[..i]), rest[i], id);
    RunSplits(d, steps, i + 1);
    assert DeclaresReview(Run(d, steps[..i + 1]), steps[i + 1], id);
  }

  lemma {:induction false} RunDeclares(d: Desk, steps: seq<Step>, id: Id)
    requires Inv(d) && UnderReview(Run(d, steps), id)
    ensures UnderReview(d, id) || DeclaredIn(d, steps, id)
    decreases |steps|
  {
    hide CL.Inv, RequestsInv, HoldsInv, IndexInv, UsageInv, KeysInv, Next, UnderReview, DeclaresReview;
    if steps != [] {
      var next := Next(d, steps[0]);
      ExecKeepsInv(d, steps[0]);
      RunDeclares(next, steps[1..], id);
      if UnderReview(next, id) {
        ExecDeclares(d, steps[0], id);
        assert Run(d, steps[..0]) == d;
      } else {
        DeclaredLater(d, steps, id);
      }
    }
  }

  /**
   * The "requires review" branches are reached in exactly one way: the owner cancels a request that an earlier
   * fail call has stored the review code on. Neither a settled hold without a result nor reconciliation gets there.
   */
  lemma ReviewOnlyWhenDeclared(steps: seq<Step>, s: Step)
    ensures var d := Run(EMPTY_DESK, steps);
      Exec(d, s).reply.RequiresReview? <==>
        && s.CancelStep? && IsUuid(Trim(s.request)) && UnderReview(d, Trim(s.request))
        && d.requests[Trim(s.request)].user == s.user
    ensures Exec(Run(EMPTY_DESK, steps), s).reply.RequiresReview? ==> DeclaredIn(EMPTY_DESK, steps, Trim(s.request))
  {
    hide Inv, Next, Exec, DeclaredIn;
    var d := Run(EMPTY_DESK, steps);
    EmptyDeskInv();
    RunKeepsInv(EMPTY_DESK, steps);
    ReviewIsUnderReview(d, s);
    if Exec(d, s).reply.RequiresReview? {
      RunDeclares(EMPTY_DESK, steps, Trim(s.request));
    }
  }

  /** Storing the code puts the request under review. */
  lemma DeclaringPutsUnderReview(d: Desk, x: FailInput)
    requires DeclaresReview(d, FailStep(x), x.request)
    ensures x.request in d.requests && UnderReview(Fail(d, x).desk, x.request)
    ensures Fail(d, x).desk.requests[x.request].user == d.requests[x.request].user
  {
  }

  lemma ReviewStays(d: Desk, later: Desk, s: Step, id: Id)
    requires RequestsInv(d) && RequestsInv(later) && Extends(d, later) && UnderReview(d, id)
    requires s.CancelStep? && Trim(s.request) == id && IsUuid(id) && d.requests[id].user == s.user
    ensures Exec(later, s) == Outcome(later, RequiresReview)
  {
    assert Continues(d.requests[id], later.requests[id]);
    assert RequestOk(d, id);
    assert RequestOk(later, id);
  }

  /** And it is reached: after such a fail call, at any later time, the owner's cancellation is sent to review. */
  lemma DeclaredReviewIsGiven(before: seq<Step>, x: FailInput, after: seq<Step>, s: Step)
    requires IsUuid(x.request) && DeclaresReview(Run(EMPTY_DESK, before), FailStep(x), x.request)
    requires x.request in Run(EMPTY_DESK, before).requests
    requires s.CancelStep? && Trim(s.request) == x.request && s.user == Run(EMPTY_DESK, before).requests[x.request].user
    ensures var later := Run(Next(Run(EMPTY_DESK, before), FailStep(x)), after);
      Exec(later, s) == Outcome(later, RequiresReview)
  {
    hide Exec, Fail, DeclaresReview, UnderReview, Extends, IsUuid;
    var d := Run(EMPTY_DESK, before);
    var next := Next(d, FailStep(x));
    EmptyDeskInv();
    RunKeepsInv(EMPTY_DESK, before);
    ExecKeepsInv(d, FailStep(x));
    RunKeepsInv(next, after);
    RunExtends(next, after);
    NextFail(d, x);
    DeclaringPutsUnderReview(d, x);
    ReviewStays(next, Run(next, after), s, x.request);
  }

  lemma CancelIsUnderReview(d: Desk, user: Id, requested: Id, requestId: string)
    requires RequestsInv(d)
    ensures Cancel(d, user, requested, requestId).reply.RequiresReview? <==>
      IsUuid(Trim(requested)) && UnderReview(d, Trim(requested)) && d.requests[Trim(requested)].user == user
  {
    hide C.Free, IsUuid;
    if Trim(requested) in d.requests {
      assert RequestOk(d, Trim(requested));
    }
  }

  lemma ReconcileNeedsNoReview(d: Desk, id: Id, now: int, requestId: string)
    requires RequestsInv(d)
    ensures !Reconcile(d, id, now, requestId).reply.RequiresReview?
  {
    hide C.Free;
    if id in d.requests {
      assert RequestOk(d, id);
    }
  }

  lemma ReviewIsUnderReview(d: Desk, s: Step)
    requires RequestsInv(d)
    ensures Exec(d, s).reply.RequiresReview? <==>
      && s.CancelStep? && IsUuid(Trim(s.request)) && UnderReview(d, Trim(s.request))
        && d.requests[Trim(s.request)].user == s.user
  {
    hide RequestsInv, IsUuid, UnderReview, C.Exec, C.Hold, C.Charge, C.Free, IsForeign;
    match s
    case CancelStep(user, requested, requestId) =>
      hide Cancel;
      CancelIsUnderReview(d, user, requested, requestId);
    case ReconcileStep(id, now, requestId) => ReconcileNeedsNoReview(d, id, now, requestId);
    case _ =>
  }

  // ----- Progress -----

  /** While a request is processing, none of the keys that could end it is taken. */
  lemma EndingKeysUnused(d: Desk, id: Id, key: string)
    requires CL.RowsInv(d.book) && RequestsInv(d) && KeysInv(d)
    requires id in d.requests && d.requests[id].status == Processing && IsEndingKey(id, key)
    ensures C.EntryByKey(d.book.ledger, key) == None
  {
    CL.KeyLookup(d.book.ledger, key);
    var found := C.EntryByKey(d.book.ledger, key);
    if found.Some? {
      var m := found.value.mutation;
      assert "client-ai:" <= key;
      assert OwnedKey(d, m);
      var owner :| owner in d.requests && d.requests[owner].reservation == m.reservation && IsKeyOf(owner, m.key);
      EndingKeyIdentifies(id, owner, key);
      assert RequestOk(d, id);
      var rid := m.reservation.value;
      assert C.Rows(d.book.ledger, m.kind, rid) == CL.RowsDue(d.book, m.kind, rid);
      if m.kind != C.Reserve {
        CL.NoRows(d.book.ledger, m.kind, rid, found.value);
      } else {
        var i :| 0 <= i < |d.book.ledger| && d.book.ledger[i] == found.value;
        assert CL.Documents(d.book, d.book.ledger[i].mutation);
        LedgerKeyShape(id);
      }
      assert false;
    }
  }

  /** A well-formed fail call is carried out on every processing request. */
  lemma FailIsCarriedOut(d: Desk, x: FailInput)
    requires Inv(d) && Owns(d, x.request, x.reservation, x.key) && d.requests[x.request].status == Processing
    requires var f := FailureOf(x); f.code != "" && f.message != "" && 400 <= f.status <= 599
    ensures Fail(d, x).reply == FailRecorded(true)
  {
    assert RequestOk(d, x.request);
    EndingKeysUnused(d, x.request, ReleaseKey(x.request));
    hide FailureOf, CL.Inv;
    FreeForFail(d, x);
  }

  lemma FreeForFail(d: Desk, x: FailInput)
    requires CL.Inv(d.book) && x.reservation in d.book.reservations
      && d.book.reservations[x.reservation].status == C.Reserved
    requires C.EntryByKey(d.book.ledger, ReleaseKey(x.request)) == None
    ensures C.Free(d.book, C.ReleaseInput(x.reservation, ReleaseKey(x.request), x.requestId, None)).Ok?
  {
    CL.OpenHoldCanBeFreed(d.book, C.ReleaseInput(x.reservation, ReleaseKey(x.request), x.requestId, None));
  }

  /** So whoever may fail a processing request may give it the review code. */
  lemma ReviewCanBeDeclared(steps: seq<Step>, x: FailInput)
    requires var d := Run(EMPTY_DESK, steps);
      Owns(d, x.request, x.reservation, x.key) && d.requests[x.request].status == Processing
    requires var f := FailureOf(x); f.code == REVIEW_CODE && f.message != "" && 400 <= f.status <= 599
    ensures DeclaresReview(Run(EMPTY_DESK, steps), FailStep(x), x.request)
  {
    hide Fail, FailureOf, Inv;
    EmptyDeskInv();
    RunKeepsInv(EMPTY_DESK, steps);
    FailIsCarriedOut(Run(EMPTY_DESK, steps), x);
  }

  lemma CancelReleases(d: Desk, requested: Id, requestId: string)
    requires Inv(d) && IsUuid(Trim(requested)) && Trim(requested) in d.requests
      && d.requests[Trim(requested)].status == Processing
    ensures GivesBack(d, Cancel(d, d.requests[Trim(requested)].user, requested, requestId), Trim(requested))
  {
    hide CL.LedgerInv, CL.SumsInv, CL.IndexOk, CL.RowsInv;
    var id := Trim(requested);
    assert RequestOk(d, id);
    EndingKeysUnused(d, id, CancelKey(id));
    CL.OpenHoldCanBeFreed(d.book, C.ReleaseInput(d.requests[id].reservation.value, CancelKey(id), requestId, None));
  }

  /** The request is cancelled and its whole hold is available again. */
  ghost predicate GivesBack(d: Desk, out: Outcome, id: Id) {
    && Joined(d, id) && id in out.desk.requests
    && out.reply == Cancelled(true) && out.desk.requests[id].status == Failed
    && var user := d.requests[id].user;
    && var was, now := C.AccountOf(d.book, user).balance, C.AccountOf(out.desk.book, user).balance;
    && var estimated := d.book.reservations[d.requests[id].reservation.value].estimated;
    && now == C.Balance(was.available + estimated, was.reserved - estimated)
  }

  /** In every reachable state the owner of a processing request can cancel it and gets the whole hold back. */
  lemma CancelAlwaysReleases(steps: seq<Step>, requested: Id, requestId: string)
    requires var d := Run(EMPTY_DESK, steps);
      IsUuid(Trim(requested)) && Trim(requested) in d.requests && d.requests[Trim(requested)].status == Processing
    ensures var d := Run(EMPTY_DESK, steps);
      GivesBack(d, Cancel(d, d.requests[Trim(requested)].user, requested, requestId), Trim(requested))
  {
    EmptyDeskInv();
    RunKeepsInv(EMPTY_DESK, steps);
    CancelReleases(Run(EMPTY_DESK, steps), requested, requestId);
  }

  /** A completion the service has no reason of its own to refuse. */
  predicate WellFormed(d: Desk, x: CompleteInput) {
    && Owns(d, x.request, x.reservation, x.key) && d.requests[x.request].status == Processing
    && x.providerRequestId == x.usageId && !IsBlank(x.usageId) && |x.usageId| <= 200
    && x.result.Some? && x.outputTokens > 0 && !ProviderRequestTaken(d, d.requests[x.request].model, x.usageId)
  }

  /** It takes effect if and only if its cost is within the estimate, and then charges just that cost. */
  ghost predicate ChargesWithinEstimate(d: Desk, x: CompleteInput, out: Outcome) {
    && x.reservation in d.book.reservations
    && var hold := d.book.reservations[x.reservation];
    && (out.reply == Completed(x.result) <==> x.credits <= hold.estimated)
    && (out.reply != Completed(x.result) ==> out.desk == d)
    && (out.reply == Completed(x.result) ==>
          var was, now := C.AccountOf(d.book, hold.user).balance, C.AccountOf(out.desk.book, hold.user).balance;
          now == C.Balance(was.available + hold.estimated - x.credits, was.reserved - hold.estimated))
  }

  lemma WellFormedCompletes(d: Desk, x: CompleteInput)
    requires WellFormed(d, x)
    ensures match C.Charge(d.book, SettleOf(x))
      case Ok(book, _) =>
        Complete(d, x).desk.book == book && Complete(d, x).reply == Completed(x.result)
      case Err(e) => Complete(d, x) == Reject(d, Credit(e))
  {
    hide C.Charge, ProviderRequestTaken, SettleOf, Replay;
  }

  lemma CompletionCharges(d: Desk, x: CompleteInput)
    requires Inv(d) && WellFormed(d, x)
    ensures ChargesWithinEstimate(d, x, Complete(d, x))
  {
    hide Complete, C.Charge, CL.LedgerInv, CL.SumsInv, CL.IndexOk, ProviderRequestTaken;
    assert RequestOk(d, x.request);
    EndingKeysUnused(d, x.request, SettleKey(x.request));
    CL.OpenHoldCanBeCharged(d.book, SettleOf(x));
    WellFormedCompletes(d, x);
  }

  /** In every reachable state a well-formed completion succeeds exactly when its cost is within the estimate. */
  lemma CompletionChargesUpToEstimate(steps: seq<Step>, x: CompleteInput)
    requires WellFormed(Run(EMPTY_DESK, steps), x)
    ensures ChargesWithinEstimate(Run(EMPTY_DESK, steps), x, Complete(Run(EMPTY_DESK, steps), x))
  {
    EmptyDeskInv();
    RunKeepsInv(EMPTY_DESK, steps);
    CompletionCharges(Run(EMPTY_DESK, steps), x);
  }

  // ----- Retries -----

  /** The step would repeat one that has already taken effect. */
  ghost predicate Absorbed(d: Desk, s: Step) {
    match s
    case BeginStep(x, _, _, _) => (x.user, x.operation, x.key) in d.byKey
    case CompleteStep(x) => x.request in d.requests && d.requests[x.request].status != Processing
    case FailStep(x) => x.request in d.requests && d.requests[x.request].status != Processing
    case CancelStep(_, requested, _) => Trim(requested) in d.requests
      && d.requests[Trim(requested)].status != Processing
    case ReconcileStep(id, _, _) => id in d.requests && d.requests[id].status != Processing
    case ReadStep(_, _) => false
    case ForeignStep(c) => CL.Committed(d.book, c)
  }

  /** The same request made again; new UUIDs, clock readings and request ids do not matter. */
  predicate SameCall(s: Step, t: Step) {
    match (s, t)
    case (BeginStep(x, _, _, _), BeginStep(y, _, _, _)) => x == y.(requestId := x.requestId)
    case (CompleteStep(x), CompleteStep(y)) => x == y.(requestId := x.requestId)
    case (FailStep(x), FailStep(y)) => x == y.(requestId := x.requestId)
    case (CancelStep(u, i, _), CancelStep(v, j, _)) => u == v && i == j
    case (ReconcileStep(i, _, _), ReconcileStep(j, _, _)) => i == j
    case (ForeignStep(c), ForeignStep(e)) => CL.SameCall(c, e)
    case _ => false
  }

  predicate TookEffect(r: Reply) {
    r.Started? || r.Completed? || r.FailRecorded? || r.Cancelled? || r.AlreadySettled? || r.AlreadyReleased?
    || r.RequiresReview? || r.StaleReleased? || r.Foreign?
  }

  lemma BeginIsAbsorbed(d: Desk, x: BeginInput, newId: Id, newReservation: Id, now: int)
    requires TookEffect(Begin(d, x, newId, newReservation, now).reply)
    ensures (x.user, x.operation, x.key) in Begin(d, x, newId, newReservation, now).desk.byKey
  {
  }

  lemma CompleteIsAbsorbed(d: Desk, x: CompleteInput)
    requires TookEffect(Complete(d, x).reply)
    ensures Absorbed(Complete(d, x).desk, CompleteStep(x))
  {
    hide C.Charge, ProviderRequestTaken, SettleOf;
  }

  lemma FailIsAbsorbed(d: Desk, x: FailInput)
    requires TookEffect(Fail(d, x).reply)
    ensures Absorbed(Fail(d, x).desk, FailStep(x))
  {
    hide C.Free, FailureOf;
  }

  lemma CancelIsAbsorbed(d: Desk, user: Id, requested: Id, requestId: string)
    requires TookEffect(Cancel(d, user, requested, requestId).reply)
    ensures Absorbed(Cancel(d, user, requested, requestId).desk, CancelStep(user, requested, requestId))
  {
    hide C.Free, IsUuid;
  }

  lemma ReconcileIsAbsorbed(d: Desk, id: Id, now: int, requestId: string)
    requires TookEffect(Reconcile(d, id, now, requestId).reply)
    ensures Absorbed(Reconcile(d, id, now, requestId).desk, ReconcileStep(id, now, requestId))
  {
    hide C.Free;
  }

  lemma OwnEffectIsAbsorbed(d: Desk, s: Step)
    requires !s.ReadStep? && !s.ForeignStep? && TookEffect(Exec(d, s).reply)
    ensures Absorbed(Next(d, s), s)
  {
    hide Begin, Complete, Fail, Cancel, Reconcile, ReadReplay, Absorbed, TookEffect;
    match s
    case BeginStep(x, newId, newReservation, now) =>
      BeginIsAbsorbed(d, x, newId, newReservation, now);
      KeyIsAbsorbed(Next(d, s), s);
    case CompleteStep(x) => CompleteIsAbsorbed(d, x);
    case FailStep(x) => FailIsAbsorbed(d, x);
    case CancelStep(user, requested, requestId) => CancelIsAbsorbed(d, user, requested, requestId);
    case ReconcileStep(id, now, requestId) => ReconcileIsAbsorbed(d, id, now, requestId);
  }

  lemma KeyIsAbsorbed(d: Desk, s: Step)
    requires s.BeginStep? && (s.begin.user, s.begin.operation, s.begin.key) in d.byKey
    ensures Absorbed(d, s)
  {
  }

  lemma EffectIsAbsorbed(d: Desk, s: Step)
    requires Inv(d) && !s.ReadStep? && TookEffect(Exec(d, s).reply)
    ensures Absorbed(Next(d, s), s)
  {
    if s.ForeignStep? {
      CL.SuccessCommits(d.book, s.step);
    } else {
      OwnEffectIsAbsorbed(d, s);
    }
  }

  lemma StaysAbsorbed(d: Desk, later: Desk, s: Step)
    requires Absorbed(d, s) && Extends(d, later)
    ensures Absorbed(later, s)
  {
    match s
    case ForeignStep(c) => CL.StaysCommitted(d.book, later.book, c);
    case CompleteStep(x) => assert Continues(d.requests[x.request], later.requests[x.request]);
    case FailStep(x) => assert Continues(d.requests[x.request], later.requests[x.request]);
    case CancelStep(_, requested, _) => assert Continues(d.requests[Trim(requested)], later.requests[Trim(requested)]);
    case ReconcileStep(id, _, _) => assert Continues(d.requests[id], later.requests[id]);
    case _ =>
  }

  lemma AbsorbedIsQuiet(d: Desk, s: Step, t: Step)
    requires Absorbed(d, s) && SameCall(s, t)
    ensures Next(d, t) == d
  {
    if s.ForeignStep? {
      CL.ReplayIsQuiet(d.book, s.step, t.step);
    }
  }

  /** Drops every step that repeats a call which has already taken effect. */
  ghost function WithoutRepeats(d: Desk, done: seq<Step>, steps: seq<Step>): seq<Step>
    decreases |steps|
  {
    if steps == [] then []
    else if exists i :: 0 <= i < |done| && SameCall(done[i], steps[0]) then WithoutRepeats(d, done, steps[1..])
    else
      var out := Exec(d, steps[0]);
      [steps[0]] +
      WithoutRepeats(out.desk,
                     if TookEffect(out.reply) && !steps[0].ReadStep? then done + [steps[0]] else done, steps[1..])
  }

  /** A run ends in the same requests, reservations, balances and ledger as the run without its retries. */
  lemma {:induction false} RetriesStutter(d: Desk, done: seq<Step>, steps: seq<Step>)
    requires Inv(d) && forall i :: 0 <= i < |done| ==> Absorbed(d, done[i])
    ensures Run(d, WithoutRepeats(d, done, steps)) == Run(d, steps)
    decreases |steps|
  {
    hide Inv, Absorbed, Exec, Extends, SameCall, TookEffect;
    if steps != [] {
      var s := steps[0];
      if i :| 0 <= i < |done| && SameCall(done[i], s) {
        AbsorbedIsQuiet(d, done[i], s);
        RetriesStutter(d, done, steps[1..]);
      } else {
        var next := Next(d, s);
        InvExtends(d, s);
        ExecKeepsInv(d, s);
        forall i | 0 <= i < |done| ensures Absorbed(next, done[i]) {
          StaysAbsorbed(d, next, done[i]);
        }
        if TookEffect(Exec(d, s).reply) && !s.ReadStep? {
          EffectIsAbsorbed(d, s);
          RetriesStutter(next, done + [s], steps[1..]);
        } else {
          RetriesStutter(next, done, steps[1..]);
        }
      }
    }
  }

  /** A request under this key and payload exists. */
  predicate Bound(d: Desk, x: BeginInput, id: Id) {
    && (x.user, x.operation, x.key) in d.byKey && d.byKey[(x.user, x.operation, x.key)] == id
    && id in d.requests && d.requests[id].payloadHash == x.payloadHash
  }

  /** The reply tells how the request stands: its result, its failure, or that it is being worked on. */
  predicate Tells(r: Request, reply: Reply) {
    && (r.status == Succeeded ==> reply == Completed(r.result))
    && (r.status == Failed && r.failure.Some? ==> reply == Rejected(Stored(r.failure.value)))
    && (r.status == Processing ==> reply == Rejected(InProgress))
  }

  lemma StaysBound(d: Desk, x: BeginInput, id: Id, after: seq<Step>)
    requires Inv(d) && Bound(d, x, id)
    ensures Bound(Run(d, after), x, id)
  {
    RunExtends(d, after);
    assert Continues(d.requests[id], Run(d, after).requests[id]);
  }

  lemma StartBinds(d: Desk, x: BeginInput, newId: Id, newReservation: Id, now: int)
    requires Begin(d, x, newId, newReservation, now).reply.Started?
    ensures Bound(Begin(d, x, newId, newReservation, now).desk, x, newId)
  {
  }

  /** Once a key has started a request, every later begin under it answers from that request and changes nothing. */
  lemma BeginReplays(d: Desk, x: BeginInput, newId: Id, newReservation: Id, now: int, after: seq<Step>, y: Step)
    requires Inv(d) && Begin(d, x, newId, newReservation, now).reply.Started?
    requires y.BeginStep? && (y.begin.user, y.begin.operation, y.begin.key) == (x.user, x.operation, x.key)
    ensures var later := Run(Begin(d, x, newId, newReservation, now).desk, after);
      && Next(later, y) == later && newId in later.requests
      && (IsIdempotencyKey(x.key) && !IsBlank(y.begin.model) && |y.begin.model| <= 160 && y.begin.estimated > 0 ==>
            if y.begin.payloadHash == x.payloadHash then Tells(later.requests[newId], Exec(later, y).reply)
            else Exec(later, y).reply == Rejected(KeyCollision))
  {
    var started := Begin(d, x, newId, newReservation, now).desk;
    StartBinds(d, x, newId, newReservation, now);
    BeginKeeps(d, x, newId, newReservation, now);
    StaysBound(started, x, newId, after);
    BoundReplays(Run(started, after), x, newId, y);
  }

  lemma BoundReplays(d: Desk, x: BeginInput, id: Id, y: Step)
    requires Bound(d, x, id)
    requires y.BeginStep? && (y.begin.user, y.begin.operation, y.begin.key) == (x.user, x.operation, x.key)
    ensures Next(d, y) == d
    ensures IsIdempotencyKey(x.key) && !IsBlank(y.begin.model) && |y.begin.model| <= 160 && y.begin.estimated > 0 ==>
      if y.begin.payloadHash == x.payloadHash then Tells(d.requests[id], Exec(d, y).reply)
      else Exec(d, y).reply == Rejected(KeyCollision)
  {
  }
}
