/**
 * Client AI inference requests, which reserve credits before the model runs and
 * settle or release them afterwards.
 *
 * Every operation is one transaction under row locks. `Rejected` is a thrown error.
 */
module Inference {
  import opened Common
  import C = Credits

  datatype Operation = AssistantMessage | StrategyGeneration

  datatype Status = Processing | Succeeded | Failed

  datatype Failure = Failure(code: string, message: string, status: int)

  datatype Request = Request(
    user: Id, operation: Operation, key: string, payloadHash: string, model: string, status: Status,
    reservation: Option<Id>, result: Option<string>, failure: Option<Failure>, usageId: Option<string>)

  /** `byKey` is the unique index on (user, operation, idempotency key). */
  datatype Desk = Desk(book: C.Book, requests: map<Id, Request>, byKey: map<(Id, Operation, string), Id>)

  const EMPTY_DESK := Desk(C.EMPTY_BOOK, map[], map[])

  datatype Error =
    | IdempotencyKeyRequired
    | ModelNotConfigured
    | RateNotReliable
    | KeyCollision
    | InProgress
    | CreditsInsufficient
    | UsageNotReliable
    | RequestNotFound
    | ResultInvalid
    | FailureStateInvalid
    | ConstraintViolation
    | NotForeign
    | Stored(failure: Failure)
    | Credit(cause: C.Error)

  datatype Reply =
    | Started(request: Id, reservation: Id)
    | Completed(result: Option<string>)
    | FailRecorded(created: bool)
    | Cancelled(created: bool)
    | AlreadySettled
    | AlreadyReleased
    | RequiresReview
    | Unchanged
    | StaleReleased
    | NothingStored
    | Foreign(reply: C.Reply)
    | Rejected(error: Error)

  datatype Outcome = Outcome(desk: Desk, reply: Reply)

  // ----- Keys -----

  /** The ledger and reservation keys of a request, one for each thing that can happen to it. */
  function Key(id: Id, suffix: string): string { "client-ai:" + id + suffix }

  function ReserveKey(id: Id): string { Key(id, ":reserve") }
  function SettleKey(id: Id): string { Key(id, ":settle") }
  function ReleaseKey(id: Id): string { Key(id, ":release") }
  function CancelKey(id: Id): string { Key(id, ":cancel-release") }
  function StaleKey(id: Id): string { Key(id, ":stale-release") }

  predicate IsKeyChar(c: char) {
    IsAlnum(c) || c in "._:-"
  }

  predicate IsIdempotencyKey(key: string) {
    8 <= |key| <= 128 && forall i :: 0 <= i < |key| ==> IsKeyChar(key[i])
  }

  predicate IsUuid(s: string) {
    && |s| == 36
    && (forall i :: 0 <= i < 36 ==> if i in {8, 13, 18, 23} then s[i] == '-' else IsHex(s[i]))
    && '1' <= s[14] <= '8' && s[19] in "89abAB"
  }

  // ----- Operations -----

  /** What a stored request answers to the same call. */
  function Replay(r: Request): Reply {
    match r.status
    case Succeeded => Completed(r.result)
    case Failed => Rejected(Stored(if r.failure.Some? then r.failure.value else Failure("AI_REQUEST_FAILED", "", 502)))
    case Processing => Rejected(InProgress)
  }

  function Reject(d: Desk, e: Error): Outcome {
    Outcome(d, Rejected(e))
  }

  datatype BeginInput = BeginInput(
    user: Id, operation: Operation, key: string, payloadHash: string, model: string,
    estimated: int, requestId: string)

  const HOLD_MILLISECONDS := 600_000

  function HoldInput(x: BeginInput, id: Id, now: int): C.ReserveInput {
    C.ReserveInput(x.user, x.estimated, "client_ai_inference", id, ReserveKey(id), x.requestId,
                   now + HOLD_MILLISECONDS, None)
  }

  function NewRequest(x: BeginInput, reservation: Id): Request {
    Request(x.user, x.operation, x.key, x.payloadHash, x.model, Processing, Some(reservation), None, None, None)
  }

  function Begin(d: Desk, x: BeginInput, newId: Id, newReservation: Id, now: int): Outcome {
    var index := (x.user, x.operation, x.key);
    if !IsIdempotencyKey(x.key) then Reject(d, IdempotencyKeyRequired)
    else if IsBlank(x.model) || |x.model| > 160 then Reject(d, ModelNotConfigured)
    else if x.estimated <= 0 then Reject(d, RateNotReliable)
    else if index in d.byKey then
      var id := d.byKey[index];
      if id !in d.requests || d.requests[id].payloadHash != x.payloadHash then Reject(d, KeyCollision)
      else Outcome(d, Replay(d.requests[id]))
    else if newId in d.requests then Reject(d, ConstraintViolation)
    else
      match C.Hold(d.book, HoldInput(x, newId, now), newReservation)
      case Err(e) => Reject(d, if e == C.Insufficient then CreditsInsufficient else Credit(e))
      case Ok(book, reply) =>
        var request := NewRequest(x, reply.reservation);
        Outcome(Desk(book, d.requests[newId := request], d.byKey[index := newId]), Started(newId, reply.reservation))

  }

  predicate Owns(d: Desk, id: Id, reservation: Id, key: string) {
    id in d.requests && d.requests[id].reservation == Some(reservation) && d.requests[id].key == key
  }

  datatype CompleteInput = CompleteInput(
    request: Id, reservation: Id, key: string, requestId: string, result: Option<string>,
    providerRequestId: string, usageId: string, inputTokens: nat, outputTokens: nat, credits: nat)

  function SettleOf(x: CompleteInput): C.SettleInput {
    C.SettleInput(x.reservation, SettleKey(x.request), x.requestId, None,
                  C.Usage("provider_metering", x.usageId, x.inputTokens, x.outputTokens, x.credits))
  }

  /** The unique index on (model revision, provider request) over completed requests. */
  predicate ProviderRequestTaken(d: Desk, model: string, usageId: string) {
    exists id :: id in d.requests && d.requests[id].model == model && d.requests[id].usageId == Some(usageId)
  }

  function Complete(d: Desk, x: CompleteInput): Outcome {
    if IsBlank(x.providerRequestId) || IsBlank(x.usageId) || x.providerRequestId != x.usageId then
      Reject(d, UsageNotReliable)
    else if !Owns(d, x.request, x.reservation, x.key) then Reject(d, RequestNotFound)
    else
      var row := d.requests[x.request];
      if row.status != Processing then Outcome(d, Replay(row))
      else
        match C.Charge(d.book, SettleOf(x))
        case Err(e) => Reject(d, Credit(e))
        case Ok(book, _) =>
          if x.result == None then Reject(d, ResultInvalid)
          else if x.outputTokens == 0 || |x.usageId| > 200 || ProviderRequestTaken(d, row.model, x.usageId) then
            Reject(d, ConstraintViolation)
          else
            var done := row.(status := Succeeded, result := x.result, usageId := Some(x.usageId));
            Outcome(d.(book := book, requests := d.requests[x.request := done]), Completed(x.result))
  }

  datatype FailInput = FailInput(
    request: Id, reservation: Id, key: string, requestId: string, code: string, message: string, status: int)

  function FailureOf(x: FailInput): Failure {
    Failure(Clip(Trim(x.code), 120), Clip(Trim(x.message), 500), x.status)
  }

  function Close(d: Desk, book: C.Book, id: Id, f: Failure): Desk
    requires id in d.requests
  {
    d.(book := book, requests := d.requests[id := d.requests[id].(status := Failed, failure := Some(f))])
  }

  function Fail(d: Desk, x: FailInput): Outcome {
    var f := FailureOf(x);
    if f.code == "" || f.message == "" || f.status < 400 || f.status > 599 then Reject(d, FailureStateInvalid)
    else if !Owns(d, x.request, x.reservation, x.key) then Reject(d, RequestNotFound)
    else
      var row := d.requests[x.request];
      match row.status
      case Succeeded => Outcome(d, Replay(row))
      case Failed => if row.failure == Some(f) then Outcome(d, FailRecorded(false)) else Reject(d, KeyCollision)
      case Processing =>
        match C.Free(d.book, C.ReleaseInput(x.reservation, ReleaseKey(x.request), x.requestId, None))
        case Err(e) => Reject(d, Credit(e))
        case Ok(book, _) => Outcome(Close(d, book, x.request, f), FailRecorded(true))
  }

  const REVIEW_CODE := "AI_RECONCILIATION_REQUIRED"
  const CANCEL_CODE := "AI_REQUEST_CANCELLED"

  /** The join of a request with its reservation. */
  predicate Joined(d: Desk, id: Id) {
    id in d.requests && d.requests[id].reservation.Some? && d.requests[id].reservation.value in d.book.reservations
  }

  function Cancel(d: Desk, user: Id, requested: Id, requestId: string): Outcome {
    var id := Trim(requested);
    if !IsUuid(id) || !Joined(d, id) || d.requests[id].user != user then Reject(d, RequestNotFound)
    else
      var row := d.requests[id];
      var hold := d.book.reservations[row.reservation.value].status;
      match row.status
      case Succeeded => Outcome(d, AlreadySettled)
      case Failed =>
        if (row.failure.Some? && row.failure.value.code == REVIEW_CODE) || hold != C.Released then
          Outcome(d, RequiresReview)
        else if row.failure.Some? && row.failure.value.code == CANCEL_CODE then Outcome(d, Cancelled(false))
        else Outcome(d, AlreadyReleased)
      case Processing =>
        match hold
        case Settled => Outcome(Close(d, d.book, id, Failure(REVIEW_CODE, "settled without a result", 409)),
                                RequiresReview)
        case Released => Outcome(Close(d, d.book, id, Failure(CANCEL_CODE, "cancelled by the user", 409)),
                                 Cancelled(true))
        case Reserved =>
          match C.Free(d.book, C.ReleaseInput(row.reservation.value, CancelKey(id), requestId, None))
          case Err(e) => Reject(d, Credit(e))
          case Ok(book, _) => Outcome(Close(d, book, id, Failure(CANCEL_CODE, "cancelled by the user", 409)),
                                      Cancelled(true))
  }

  function Reconcile(d: Desk, id: Id, now: int, requestId: string): Outcome {
    if !Joined(d, id) || d.requests[id].status != Processing then Outcome(d, Unchanged)
    else
      var reservation := d.requests[id].reservation.value;
      if d.book.reservations[reservation].expiresAt > now then Outcome(d, Unchanged)
      else
        match d.book.reservations[reservation].status
        case Settled => Outcome(Close(d, d.book, id, Failure(REVIEW_CODE, "interrupted after settlement", 409)),
                                RequiresReview)
        case Released => Outcome(Close(d, d.book, id, Failure("AI_REQUEST_STALE_RELEASED", "interrupted", 409)),
                                 StaleReleased)
        case Reserved =>
          match C.Free(d.book, C.ReleaseInput(reservation, StaleKey(id), requestId, None))
          case Err(e) => Reject(d, Credit(e))
          case Ok(book, _) =>
            Outcome(Close(d, book, id, Failure("AI_REQUEST_STALE_RELEASED", "interrupted", 409)), StaleReleased)
  }

  datatype ReadInput = ReadInput(user: Id, operation: Operation, key: string, payloadHash: string)

  /** Looks a request up by its key, cleaning it up first when its hold has expired. */
  function ReadReplay(d: Desk, x: ReadInput, now: int): Outcome {
    var index := (x.user, x.operation, x.key);
    if !IsIdempotencyKey(x.key) then Reject(d, IdempotencyKeyRequired)
    else if index !in d.byKey || d.byKey[index] !in d.requests then Outcome(d, NothingStored)
    else
      var id := d.byKey[index];
      if d.requests[id].payloadHash != x.payloadHash then Reject(d, KeyCollision)
      else
        var cleaned := Reconcile(d, id, now, "client-ai:" + id + ":replay-reconcile");
        if cleaned.reply.Rejected? then cleaned
        else Outcome(cleaned.desk,
                     if id in cleaned.desk.requests then Replay(cleaned.desk.requests[id]) else NothingStored)
  }

  // ----- Runs -----

  const PREFIX := "client-ai:"

  /** The reservation belongs to an inference request. */
  predicate IsOwned(d: Desk, reservation: Id) {
    exists id :: id in d.requests && d.requests[id].reservation == Some(reservation)
  }

  /**
   * What other callers of the credit service do: anything under keys of their own, except ending a reservation
   * that belongs to an inference request.
   */
  predicate IsForeign(d: Desk, s: C.Step) {
    match s
    case GrantStep(g) => !(PREFIX <= g.key)
    case ReserveStep(r, _) => !(PREFIX <= r.key) && !(PREFIX <= r.key + ":ledger")
    case SettleStep(x) => !(PREFIX <= x.key) && !IsOwned(d, x.reservation)
    case ReleaseStep(r) => !(PREFIX <= r.key) && !IsOwned(d, r.reservation)
    case AdjustStep(_) => true
  }

  datatype Step =
    | BeginStep(begin: BeginInput, newId: Id, newReservation: Id, now: int)
    | CompleteStep(complete: CompleteInput)
    | FailStep(fail: FailInput)
    | CancelStep(user: Id, request: Id, requestId: string)
    | ReconcileStep(request: Id, now: int, requestId: string)
    | ReadStep(read: ReadInput, now: int)
    | ForeignStep(step: C.Step)

  function Exec(d: Desk, s: Step): Outcome {
    match s
    case BeginStep(x, newId, newReservation, now) => Begin(d, x, newId, newReservation, now)
    case CompleteStep(x) => Complete(d, x)
    case FailStep(x) => Fail(d, x)
    case CancelStep(user, id, requestId) => Cancel(d, user, id, requestId)
    case ReconcileStep(id, now, requestId) => Reconcile(d, id, now, requestId)
    case ReadStep(x, now) => ReadReplay(d, x, now)
    case ForeignStep(c) =>
      if !IsForeign(d, c) then Reject(d, NotForeign)
      else
        match C.Exec(d.book, c)
        case Err(e) => Reject(d, Credit(e))
        case Ok(book, reply) => Outcome(d.(book := book), Foreign(reply))
  }

  function Next(d: Desk, s: Step): Desk {
    Exec(d, s).desk
  }

  function Run(d: Desk, steps: seq<Step>): Desk
    decreases |steps|
  {
    if steps == [] then d else Run(Next(d, steps[0]), steps[1..])
  }

  // ----- Steps as calls -----

  lemma NextBegin(d: Desk, x: BeginInput, newId: Id, newReservation: Id, now: int)
    ensures Next(d, BeginStep(x, newId, newReservation, now)) == Begin(d, x, newId, newReservation, now).desk
  {
    hide Begin, Complete, Fail, Cancel, Reconcile, ReadReplay, C.Exec, IsForeign;
  }

  lemma NextComplete(d: Desk, x: CompleteInput)
    ensures Next(d, CompleteStep(x)) == Complete(d, x).desk
  {
    hide Begin, Complete, Fail, Cancel, Reconcile, ReadReplay, C.Exec, IsForeign;
  }

  lemma NextFail(d: Desk, x: FailInput)
    ensures Next(d, FailStep(x)) == Fail(d, x).desk
  {
    hide Begin, Complete, Fail, Cancel, Reconcile, ReadReplay, C.Exec, IsForeign;
  }

  lemma NextCancel(d: Desk, user: Id, request: Id, requestId: string)
    ensures Next(d, CancelStep(user, request, requestId)) == Cancel(d, user, request, requestId).desk
  {
    hide Begin, Complete, Fail, Cancel, Reconcile, ReadReplay, C.Exec, IsForeign;
  }

  lemma NextReconcile(d: Desk, id: Id, now: int, requestId: string)
    ensures Next(d, ReconcileStep(id, now, requestId)) == Reconcile(d, id, now, requestId).desk
  {
    hide Begin, Complete, Fail, Cancel, Reconcile, ReadReplay, C.Exec, IsForeign;
  }

  lemma NextRead(d: Desk, x: ReadInput, now: int)
    ensures Next(d, ReadStep(x, now)) == ReadReplay(d, x, now).desk
  {
    hide Begin, Complete, Fail, Cancel, Reconcile, ReadReplay, C.Exec, IsForeign;
  }
}
