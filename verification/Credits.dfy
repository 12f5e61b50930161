/**
 * The AI-credit book: accounts, reservations and the append-only ledger.
 *
 * Each operation is one database transaction, so it is a function from the
 * committed book to an outcome; `Err` means rollback, and the book stays as it was.
 */
module Credits {
  import opened Common

  // ----- Domain rules -----

  datatype Kind = Grant | Reserve | Settle | Release | Adjust

  datatype Delta = Delta(available: int, reserved: int)

  datatype Balance = Balance(available: int, reserved: int)

  /** The only flows of credit each kind of mutation may record. */
  predicate ValidMutation(kind: Kind, d: Delta) {
    match kind
    case Grant => d.available > 0 && d.reserved == 0
    case Reserve => d.available < 0 && d.reserved == -d.available
    case Settle => d.available >= 0 && d.reserved < 0 && d.available + d.reserved <= 0
    case Release => d.available > 0 && d.reserved == -d.available
    case Adjust => d.reserved == 0 && d.available != 0
  }

  /** Applies a delta, refusing rather than clamping a negative balance. */
  function ApplyDelta(b: Balance, d: Delta): Option<Balance> {
    var available, reserved := b.available + d.available, b.reserved + d.reserved;
    if available < 0 || reserved < 0 then None else Some(Balance(available, reserved))
  }

  datatype Status = Reserved | Settled | Released

  datatype Transition = Proceed | Replay | Conflict

  function ResolveTransition(current: Status, target: Status): Transition {
    if current == target then Replay else if current == Reserved then Proceed else Conflict
  }

  /** Refund of the unused part together with the whole hold; no top-up beyond the hold. */
  function PlanSettlement(estimated: int, actual: int): Option<Delta> {
    if actual > estimated then None else Some(Delta(estimated - actual, -estimated))
  }

  function PlanRelease(estimated: int): Delta {
    Delta(estimated, -estimated)
  }

  // ----- Tables -----

  /** `usage_json` of a settlement, including the cost the usage was priced at. */
  datatype Usage = Usage(source: string, usageId: string, inputTokens: nat, outputTokens: nat, credits: nat)

  /** The columns of a ledger row that the caller supplies. */
  datatype Mutation = Mutation(
    user: Id, kind: Kind, delta: Delta, sourceType: string, sourceId: Id, key: string,
    requestId: string, actor: Option<Id>, reservation: Option<Id>,
    costModel: Option<string>, usage: Option<Usage>)

  /** A ledger row: a mutation and the balances right after it. */
  datatype Entry = Entry(mutation: Mutation, balance: Balance)

  datatype Account = Account(balance: Balance, version: nat)

  datatype Reservation = Reservation(
    user: Id, estimated: int, settled: Option<int>, status: Status, key: string, expiresAt: int)

  /** `byKey` is the unique index on a reservation's idempotency key. */
  datatype Book = Book(
    accounts: map<Id, Account>, reservations: map<Id, Reservation>, byKey: map<string, Id>,
    ledger: seq<Entry>)

  const EMPTY_BOOK := Book(map[], map[], map[], [])

  datatype Error =
    | MutationInvalid
    | Insufficient
    | KeyCollision
    | AmountInvalid
    | UsageNotReliable
    | ReservationNotFound
    | StateConflict
    | ReservationExceeded
    | ConstraintViolation

  datatype Reply =
    | Posted(balance: Balance, created: bool)
    | Held(reservation: Id, created: bool)
    | Charged(reservation: Id, settled: int, created: bool)
    | Freed(reservation: Id, created: bool)

  datatype Outcome = Ok(book: Book, reply: Reply) | Err(error: Error)

  /** The oldest ledger row with this idempotency key. */
  function EntryByKey(ledger: seq<Entry>, key: string): Option<Entry> {
    if ledger == [] then None
    else
      var n := |ledger| - 1;
      match EntryByKey(ledger[..n], key)
      case Some(e) => Some(e)
      case None => if ledger[n].mutation.key == key then Some(ledger[n]) else None
  }

  predicate IsEntryOf(e: Entry, kind: Kind, reservation: Id) {
    e.mutation.kind == kind && e.mutation.reservation == Some(reservation)
  }

  /** The oldest ledger row of this kind for a reservation. */
  function EntryOf(ledger: seq<Entry>, kind: Kind, reservation: Id): Option<Entry> {
    if ledger == [] then None
    else
      var n := |ledger| - 1;
      match EntryOf(ledger[..n], kind, reservation)
      case Some(e) => Some(e)
      case None => if IsEntryOf(ledger[n], kind, reservation) then Some(ledger[n]) else None
  }

  predicate SameSource(a: Mutation, b: Mutation) {
    a.sourceType == b.sourceType && a.sourceId == b.sourceId && a.kind == b.kind
  }

  /** The unique constraint on (source_type, source_id, entry_type). */
  predicate SourceTaken(ledger: seq<Entry>, m: Mutation) {
    exists i :: 0 <= i < |ledger| && SameSource(ledger[i].mutation, m)
  }

  /** Everything a replay must repeat; the request id is not compared. */
  predicate SameContext(a: Mutation, b: Mutation) {
    a == b.(requestId := a.requestId)
  }

  // ----- Operations -----

  function AccountOf(b: Book, user: Id): Account {
    if user in b.accounts then b.accounts[user] else Account(Balance(0, 0), 1)
  }

  function Mutate(b: Book, m: Mutation): Outcome {
    if !ValidMutation(m.kind, m.delta) then Err(MutationInvalid)
    else
      match EntryByKey(b.ledger, m.key)
      case Some(e) => if SameContext(e.mutation, m) then Ok(b, Posted(e.balance, false)) else Err(KeyCollision)
      case None =>
        var account := AccountOf(b, m.user);
        match ApplyDelta(account.balance, m.delta)
        case None => Err(Insufficient)
        case Some(balance) =>
          if SourceTaken(b.ledger, m) then Err(ConstraintViolation)
          else
            Ok(b.(accounts := b.accounts[m.user := Account(balance, account.version + 1)],
                  ledger := b.ledger + [Entry(m, balance)]),
               Posted(balance, true))
  }

  datatype GrantInput = GrantInput(
    user: Id, credits: int, sourceType: string, sourceId: Id, key: string, requestId: string, actor: Option<Id>)

  function GrantMutation(g: GrantInput): Mutation {
    Mutation(g.user, Grant, Delta(g.credits, 0), g.sourceType, g.sourceId, g.key, g.requestId, g.actor, None, None,
             None)
  }

  datatype ReserveInput = ReserveInput(
    user: Id, credits: int, sourceType: string, sourceId: Id, key: string, requestId: string,
    expiresAt: int, actor: Option<Id>)

  function ReserveMutation(r: ReserveInput, reservation: Id): Mutation {
    Mutation(r.user, Reserve, Delta(-r.credits, r.credits), r.sourceType, r.sourceId, r.key + ":ledger", r.requestId,
             r.actor, Some(reservation), None, None)
  }

  predicate SameReserve(row: Reservation, entry: Option<Entry>, r: ReserveInput) {
    && row.user == r.user && row.estimated == r.credits && row.expiresAt == r.expiresAt
    && entry.Some? && entry.value.mutation.sourceType == r.sourceType
    && entry.value.mutation.sourceId == r.sourceId && entry.value.mutation.actor == r.actor
  }

  /** `newId` is the UUID drawn for a new reservation. */
  function Hold(b: Book, r: ReserveInput, newId: Id): Outcome {
    if r.credits <= 0 then Err(AmountInvalid)
    else if r.key in b.byKey && b.byKey[r.key] in b.reservations then
      var id := b.byKey[r.key];
      if SameReserve(b.reservations[id], EntryOf(b.ledger, Reserve, id), r) then Ok(b, Held(id, false))
      else Err(KeyCollision)
    else if newId in b.reservations then Err(ConstraintViolation)
    else
      var row := Reservation(r.user, r.credits, None, Reserved, r.key, r.expiresAt);
      var inserted := b.(reservations := b.reservations[newId := row], byKey := b.byKey[r.key := newId]);
      match Mutate(inserted, ReserveMutation(r, newId))
      case Err(e) => Err(e)
      case Ok(next, _) => Ok(next, Held(newId, true))
  }

  const COST_MODEL := "token-cost-v1"
  const RESERVATION_SOURCE := "ai_credit_reservation"

  datatype SettleInput = SettleInput(reservation: Id, key: string, requestId: string, actor: Option<Id>, usage: Usage)

  function SettleMutation(s: SettleInput, user: Id, delta: Delta): Mutation {
    Mutation(user, Settle, delta, RESERVATION_SOURCE, s.reservation, s.key, s.requestId, s.actor,
             Some(s.reservation), Some(COST_MODEL), Some(s.usage))
  }

  predicate SameSettle(entry: Option<Entry>, s: SettleInput) {
    && entry.Some? && entry.value.mutation.key == s.key && entry.value.mutation.actor == s.actor
    && entry.value.mutation.costModel == Some(COST_MODEL) && entry.value.mutation.usage == Some(s.usage)
  }

  function Charge(b: Book, s: SettleInput): Outcome {
    if s.usage.source != "provider_metering" || IsBlank(s.usage.usageId) then Err(UsageNotReliable)
    else if s.reservation !in b.reservations then Err(ReservationNotFound)
    else
      var row := b.reservations[s.reservation];
      match ResolveTransition(row.status, Settled)
      case Replay =>
        if SameSettle(EntryOf(b.ledger, Settle, s.reservation), s)
        then Ok(b, Charged(s.reservation, if row.settled.Some? then row.settled.value else s.usage.credits, false))
        else Err(KeyCollision)
      case Conflict => Err(StateConflict)
      case Proceed =>
        match PlanSettlement(row.estimated, s.usage.credits)
        case None => Err(ReservationExceeded)
        case Some(delta) =>
          match Mutate(b, SettleMutation(s, row.user, delta))
          case Err(e) => Err(e)
          case Ok(next, _) =>
            var settled := row.(status := Settled, settled := Some(s.usage.credits));
            Ok(next.(reservations := next.reservations[s.reservation := settled]),
               Charged(s.reservation, s.usage.credits, true))
  }

  datatype ReleaseInput = ReleaseInput(reservation: Id, key: string, requestId: string, actor: Option<Id>)

  function ReleaseMutation(r: ReleaseInput, user: Id, delta: Delta): Mutation {
    Mutation(user, Release, delta, RESERVATION_SOURCE, r.reservation, r.key, r.requestId, r.actor,
             Some(r.reservation), None, None)
  }

  predicate SameRelease(entry: Option<Entry>, r: ReleaseInput, estimated: int) {
    && entry.Some? && entry.value.mutation.key == r.key && entry.value.mutation.actor == r.actor
    && entry.value.mutation.delta == PlanRelease(estimated)
    && entry.value.mutation.sourceType == RESERVATION_SOURCE && entry.value.mutation.sourceId == r.reservation
    && entry.value.mutation.reservation == Some(r.reservation)
  }

  function Free(b: Book, r: ReleaseInput): Outcome {
    if r.reservation !in b.reservations then Err(ReservationNotFound)
    else
      var row := b.reservations[r.reservation];
      match ResolveTransition(row.status, Released)
      case Replay =>
        if SameRelease(EntryOf(b.ledger, Release, r.reservation), r, row.estimated)
        then Ok(b, Freed(r.reservation, false))
        else Err(KeyCollision)
      case Conflict => Err(StateConflict)
      case Proceed =>
        match Mutate(b, ReleaseMutation(r, row.user, PlanRelease(row.estimated)))
        case Err(e) => Err(e)
        case Ok(next, _) =>
          Ok(next.(reservations := next.reservations[r.reservation := row.(status := Released)]),
             Freed(r.reservation, true))
  }

  /** An approved manual adjustment: its amount, and the request it executes. */
  datatype AdjustInput = AdjustInput(user: Id, amount: int, adjustment: Id, requestId: string, actor: Id)

  function AdjustMutation(a: AdjustInput): Mutation {
    Mutation(a.user, Adjust, Delta(a.amount, 0), "ops_credit_adjustment", a.adjustment,
             "credit-adjustment:" + a.adjustment, a.requestId, Some(a.actor), None, None, None)
  }

  /** Adjustments bypass the mutation checks; the table constraints still apply. */
  function AdjustBalance(b: Book, a: AdjustInput): Outcome {
    var known := a.user in b.accounts;
    var balance := AccountOf(b, a.user).balance.(available := AccountOf(b, a.user).balance.available + a.amount);
    if balance.available < 0 then Err(Insufficient)
    else if a.amount == 0 || EntryByKey(b.ledger, AdjustMutation(a).key).Some?
      || SourceTaken(b.ledger, AdjustMutation(a))
    then Err(ConstraintViolation)
    else
      var version := if known then b.accounts[a.user].version + 1 else 1;
      Ok(b.(accounts := b.accounts[a.user := Account(balance, version)],
            ledger := b.ledger + [Entry(AdjustMutation(a), balance)]),
         Posted(balance, true))
  }

  // ----- Runs -----

  datatype Step =
    | GrantStep(grant: GrantInput)
    | ReserveStep(reserve: ReserveInput, newId: Id)
    | SettleStep(settle: SettleInput)
    | ReleaseStep(release: ReleaseInput)
    | AdjustStep(adjust: AdjustInput)

  function Exec(b: Book, s: Step): Outcome {
    match s
    case GrantStep(g) => Mutate(b, GrantMutation(g))
    case ReserveStep(r, newId) => Hold(b, r, newId)
    case SettleStep(x) => Charge(b, x)
    case ReleaseStep(r) => Free(b, r)
    case AdjustStep(a) => AdjustBalance(b, a)
  }

  function Next(b: Book, s: Step): Book {
    match Exec(b, s)
    case Ok(next, _) => next
    case Err(_) => b
  }

  function Run(b: Book, steps: seq<Step>): Book
    decreases |steps|
  {
    if steps == [] then b else Run(Next(b, steps[0]), steps[1..])
  }

  // ----- Aggregates over the ledger -----

  /** Per-user sums over ledger rows, as the client's credit view computes them. */
  datatype Totals = Totals(
    available: int, reserved: int, granted: int, adjusted: int, consumed: int, entries: nat)

  function Count(t: Totals, e: Entry, user: Id): Totals {
    var d := e.mutation.delta;
    if e.mutation.user != user then t
    else Totals(
      t.available + d.available,
      t.reserved + d.reserved,
      t.granted + if e.mutation.kind == Grant then d.available else 0,
      t.adjusted + if e.mutation.kind == Adjust then d.available else 0,
      t.consumed - if e.mutation.kind == Settle then d.available + d.reserved else 0,
      t.entries + 1)
  }

  function Tally(ledger: seq<Entry>, user: Id): Totals {
    if ledger == [] then Totals(0, 0, 0, 0, 0, 0)
    else Count(Tally(ledger[..|ledger| - 1], user), ledger[|ledger| - 1], user)
  }

  /** Rows of one kind for one reservation. */
  function Rows(ledger: seq<Entry>, kind: Kind, reservation: Id): nat {
    if ledger == [] then 0
    else
      var n := |ledger| - 1;
      Rows(ledger[..n], kind, reservation) + if IsEntryOf(ledger[n], kind, reservation) then 1 else 0
  }

  /** What the ledger says a reservation has cost its user so far. */
  function NetCharge(ledger: seq<Entry>, reservation: Id): int {
    if ledger == [] then 0
    else
      var n := |ledger| - 1;
      var m := ledger[n].mutation;
      NetCharge(ledger[..n], reservation)
      - if m.reservation == Some(reservation) then m.delta.available + m.delta.reserved else 0
  }

  function HeldBy(user: Id): Reservation -> int {
    (r: Reservation) => if r.user == user && r.status == Reserved then r.estimated else 0
  }

  function SpentBy(user: Id): Reservation -> int {
    (r: Reservation) => if r.user == user && r.settled.Some? then r.settled.value else 0
  }

  /** The client's balance page: account columns beside two sums over the ledger. */
  datatype ClientBalance = ClientBalance(
    available: int, reserved: int, lifetimeGranted: int, lifetimeConsumed: int, version: nat)

  function ClientView(b: Book, user: Id): ClientBalance {
    if user !in b.accounts then ClientBalance(0, 0, 0, 0, 0)
    else
      var a, t := b.accounts[user], Tally(b.ledger, user);
      ClientBalance(a.balance.available, a.balance.reserved, t.granted, t.consumed, a.version)
  }

  /** What a caller sees of an outcome. */
  datatype Response = Success(reply: Reply) | Failure(error: Error)

  ghost predicate Performs(before: Book, after: Book, r: Response, o: Outcome) {
    match o
    case Ok(book, reply) => after == book && r == Success(reply)
    case Err(error) => after == before && r == Failure(error)
  }
}
