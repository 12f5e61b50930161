/**
 * Membership orders: a customer orders, and either pays from their wallet, or staff record evidence of a payment
 * made elsewhere and submit, and somebody else decides.
 *
 * An approval or a payment extends the membership, posts to the ledger, grants credits and records the
 * entitlement, all in one database transaction; `Err` means that none of it happened.
 */
module Membership {
  import opened Common
  import opened Idempotency
  import opened Renewal
  import Decimal
  import Texts
  import C = Credits
  import D = Disclosure
  import L = Ledger

  // ----- Tables -----

  /** Prices are in units of 10^-18. */
  datatype Plan = Plan(
    code: string, price: nat, currency: string, durationDays: Option<int>, grant: int, active: bool, effectiveAt: int)

  datatype Status = PendingEvidence | PendingReview | Activated | Rejected

  datatype Order = Order(
    user: Id, plan: Id, price: nat, currency: string, durationDays: Option<int>, grant: int, status: Status,
    submittedBy: Option<Id>, reviewedBy: Option<Id>, membership: Option<Id>, transaction: Option<Id>)

  datatype EvidenceKind = BankTransfer | ManualInvoice | ProviderReference | OtherKind(name: string)

  datatype EvidenceStatus = Recorded | Accepted | Refused

  /** Evidence of a performance fee belongs to no order. */
  datatype Evidence = Evidence(
    order: Option<Id>, kind: EvidenceKind, provider: Option<string>, fingerprint: string, amount: nat, currency: string,
    occurredAt: int, note: string, recordedBy: Id, status: EvidenceStatus)

  datatype Decision = Decision(order: Id, reviewer: Id, approve: bool, note: string, evidence: Id)

  datatype MembershipStatus = Pending | Active | Grace | ReadOnly | Ended

  datatype Membership = Membership(
    id: Id, customer: Id, plan: Id, status: MembershipStatus, startsAt: Option<int>, expiresAt: Option<int>)

  datatype EventKind = Started | Renewed

  datatype Event = Event(membership: Id, order: Id, user: Id, kind: EventKind, validFrom: int, validUntil: Option<int>)

  datatype Reply =
    | OrderCreated(order: Id)
    | EvidenceKept(evidence: Id)
    | OrderSubmitted
    | OrderRejected(evidence: Id)
    | OrderActivated(membership: Id, transaction: Id, evidence: Id)
    | OrderPaid(membership: Id, transaction: Id)
    | Consent(complete: bool)

  /** `fingerprints` is the unique index on payment references. */
  datatype Shop = Shop(
    board: D.Board, orders: map<Id, Order>, evidence: map<Id, Evidence>,
    fingerprints: map<string, Id>, decisions: seq<Decision>, memberships: seq<Membership>, events: seq<Event>,
    ledger: L.Books, credits: C.Book, records: Records<Reply>)

  datatype Error =
    | KeyCollision
    | PlanNotAvailable
    | ConfigurationIncomplete
    | AcceptanceRequired
    | ValidationFailed
    | OrderNotFound
    | StateConflict
    | NotPayable
    | EvidenceRequired
    | ReferenceCollision
    | MakerChecker
    | EvidenceMismatch
    | IntegrityConflict
    | LifetimeDowngrade
    | TrialConflict
    | Ledger(error: L.Error)
    | Credit(creditError: C.Error)
    | ConstraintViolation

  datatype Outcome = Ok(shop: Shop, reply: Reply) | Err(error: Error)

  // ----- Surroundings -----

  datatype Payload =
    | CreatePayload(plan: Id, documents: seq<Id>)
    | EvidencePayload(kind: EvidenceKind, provider: Option<string>, fingerprint: string, amount: string,
                      currency: string,
                      occurredAt: int, note: string)
    | SubmitPayload(order: Id)
    | DecisionPayload(approve: bool, decisionNote: string, evidence: Id)
    | AcceptPayload(accepted: seq<Id>)

  /**
   * Digests and texts that are not spelled out (`attachments` and `walletAttachments` are what a purchase adds to
   * its ledger payload), and the table of plan versions, which these operations only read.
   */
  datatype Env = Env(
    digests: D.Digests, ledgerHash: L.Hasher, payloadHash: Payload -> string, fingerprint: string -> string,
    attachments: (Id, Order, Id, Id) -> string, walletAttachments: (Id, Order, Id) -> string, plans: map<Id, Plan>)

  const ORDER := "commercial_membership_order"
  const USDT := "USDT"
  const LIFETIME := "lifetime_v1"
  const TRIAL := "trial_monthly_equivalent"

  /** Runs `work` under a claimed key, or answers from the record. */
  function Claimed(s: Shop, d: Descriptor, work: Outcome): Outcome {
    match ClaimKey(s.records, d)
    case Collision => Err(KeyCollision)
    case Replay(reply) => Ok(s, reply)
    case Proceed(records) =>
      match work
      case Err(e) => Err(e)
      case Ok(after, reply) => Ok(after.(records := CompleteKey(records, Slot(d), reply)), reply)
  }

  // ----- Ordering -----

  datatype CreateInput = CreateInput(user: Id, plan: Id, documents: seq<Id>, key: string, requestId: string)

  function CreateDescriptor(env: Env, x: CreateInput): Descriptor {
    Descriptor(OrderCreate, x.key, x.user, UserSubject, x.user, Some(x.plan), CreateStage, None,
               env.payloadHash(CreatePayload(x.plan, Texts.SortedSet(x.documents))),
               Some(PlanVersionSource), Some(x.plan), Some(USDT))
  }

  function NewOrder(env: Env, s: Shop, x: CreateInput, newId: Id, now: int): Outcome {
    if x.plan !in env.plans || !env.plans[x.plan].active || env.plans[x.plan].effectiveAt > now then
      Err(PlanNotAvailable)
    else if !D.ConfigurationComplete(env.digests, s.board.documents, now) then Err(ConfigurationIncomplete)
    else if !D.SuppliesCurrent(s.board, now, x.documents) then Err(AcceptanceRequired)
    else if newId in s.orders then Err(ConstraintViolation)
    else
      var p := env.plans[x.plan];
      var order := Order(x.user, x.plan, p.price, p.currency, p.durationDays, p.grant, PendingEvidence, None, None,
                         None, None);
      Ok(s.(board := D.RecordAcceptances(s.board, x.user, now), orders := s.orders[newId := order]),
         OrderCreated(newId))
  }

  function CreateOrder(env: Env, s: Shop, x: CreateInput, newId: Id, now: int): Outcome {
    Claimed(s, CreateDescriptor(env, x), NewOrder(env, s, x, newId, now))
  }

  // ----- Payment evidence -----

  /** `occurredAt` is None when the text is no date. */
  datatype EvidenceInput = EvidenceInput(
    order: Id, actor: Id, kind: EvidenceKind, provider: Option<string>, reference: string, amount: string,
    currency: string, occurredAt: Option<int>, note: Option<string>, key: string)

  function NoteOf(x: EvidenceInput): string {
    if x.note.Some? then x.note.value else ""
  }

  predicate EvidenceValid(x: EvidenceInput, now: int) {
    && !x.kind.OtherKind?
    && Decimal.ParsePlain(x.amount).Some? && Decimal.ParsePlain(x.amount).value > 0
    && x.currency == USDT
    && x.occurredAt.Some? && x.occurredAt.value <= now + 300000
    && !IsBlank(x.reference) && |x.reference| <= 256 && |NoteOf(x)| <= 500
  }

  /** The constant version prefix of a fingerprint is left off. */
  function EvidenceDescriptor(env: Env, x: EvidenceInput, user: Id): Descriptor
    requires x.occurredAt.Some?
  {
    var f := env.fingerprint(x.reference);
    Descriptor(OrderEvidence, x.key, x.actor, OrderSubject, x.order, Some(user), EvidenceStage, None,
               env.payloadHash(EvidencePayload(x.kind, x.provider, f, x.amount, x.currency, x.occurredAt.value,
                                               NoteOf(x))),
               Some(PaymentEvidenceSource), Some(f), Some(x.currency))
  }

  function EvidenceRow(env: Env, x: EvidenceInput): Evidence
    requires x.occurredAt.Some? && Decimal.ParsePlain(x.amount).Some?
  {
    Evidence(Some(x.order), x.kind, x.provider.Map(p => Clip(p, 80)), env.fingerprint(x.reference),
             Decimal.ParsePlain(x.amount).value,
             x.currency, x.occurredAt.value, NoteOf(x), x.actor, Recorded)
  }

  /** A reference that is known already is fine if it was recorded with the very same contents. */
  function KeepEvidence(s: Shop, row: Evidence, order: Order, newId: Id): Outcome {
    if order.status != PendingEvidence then Err(StateConflict)
    else if row.fingerprint in s.fingerprints && s.fingerprints[row.fingerprint] in s.evidence then
      var id := s.fingerprints[row.fingerprint];
      if s.evidence[id].(status := Recorded) == row then Ok(s, EvidenceKept(id)) else Err(ReferenceCollision)
    else if newId in s.evidence then Err(ReferenceCollision)
    else Ok(s.(evidence := s.evidence[newId := row], fingerprints := s.fingerprints[row.fingerprint := newId]),
            EvidenceKept(newId))
  }

  function RecordEvidence(env: Env, s: Shop, x: EvidenceInput, newId: Id, now: int): Outcome {
    if !EvidenceValid(x, now) then Err(ValidationFailed)
    else if x.order !in s.orders then Err(OrderNotFound)
    else
      var order := s.orders[x.order];
      Claimed(s, EvidenceDescriptor(env, x, order.user), KeepEvidence(s, EvidenceRow(env, x), order, newId))
  }

  // ----- Submitting -----

  datatype SubmitInput = SubmitInput(order: Id, actor: Id, key: string)

  function SubmitDescriptor(env: Env, x: SubmitInput, user: Id): Descriptor {
    Descriptor(OrderSubmit, x.key, x.actor, OrderSubject, x.order, Some(user), SubmitStage, None,
               env.payloadHash(SubmitPayload(x.order)), None, None, None)
  }

  predicate HasEvidence(evidence: map<Id, Evidence>, order: Id) {
    exists e :: e in evidence && evidence[e].order == Some(order)
  }

  function MarkSubmitted(s: Shop, x: SubmitInput, order: Order): Outcome {
    if order.status != PendingEvidence then Err(StateConflict)
    else if !HasEvidence(s.evidence, x.order) then Err(EvidenceRequired)
    else
      Ok(s.(orders := s.orders[x.order := order.(status := PendingReview, submittedBy := Some(x.actor))]),
         OrderSubmitted)
  }

  function SubmitOrder(env: Env, s: Shop, x: SubmitInput): Outcome {
    if x.order !in s.orders then Err(OrderNotFound)
    else
      var order := s.orders[x.order];
      Claimed(s, SubmitDescriptor(env, x, order.user), MarkSubmitted(s, x, order))
  }

  // ----- Deciding -----

  datatype DecideInput = DecideInput(
    order: Id, reviewer: Id, approve: bool, note: string, evidence: Id, key: string, requestId: string)

  datatype NewIds = NewIds(membership: Id, transaction: Id)

  function DecideDescriptor(env: Env, x: DecideInput, order: Order): Descriptor {
    Descriptor(OrderDecision, x.key, x.reviewer, OrderSubject, x.order, Some(order.user), DecisionStage,
               Some(x.approve),
               env.payloadHash(DecisionPayload(x.approve, x.note, x.evidence)),
               Some(OrderSource), Some(x.order), Some(order.currency))
  }

  predicate IsCurrentOf(m: Membership, user: Id) {
    m.customer == user && (m.status == Active || m.status == Grace || m.status == ReadOnly)
  }

  /** Where the rows are that satisfy a condition. */
  function Positions(memberships: seq<Membership>, wanted: Membership -> bool): (r: seq<nat>)
    ensures forall k :: 0 <= k < |r| ==> r[k] < |memberships| && wanted(memberships[r[k]])
  {
    if memberships == [] then []
    else
      var n := |memberships| - 1;
      Positions(memberships[..n], wanted) + if wanted(memberships[n]) then [n] else []
  }

  /** The positions of a user's current memberships. */
  function CurrentOf(memberships: seq<Membership>, user: Id): seq<nat> {
    Positions(memberships, m => IsCurrentOf(m, user))
  }

  function TermOf(plans: map<Id, Plan>, m: Membership): Term {
    Term(m.plan in plans && plans[m.plan].code == LIFETIME, m.expiresAt)
  }

  predicate MembershipIdTaken(memberships: seq<Membership>, id: Id) {
    exists i :: 0 <= i < |memberships| && memberships[i].id == id
  }

  function LedgerKey(order: Id): string {
    "membership-ledger:" + order
  }

  function CreditKey(order: Id): string {
    "membership-credit:" + order
  }

  const CLEARING := "platform_deposit_clearing"
  const FEE := "platform_fee"

  /** The clearing account is debited and the fee account credited with the price. */
  function PurchaseInput(env: Env, x: DecideInput, order: Order, membership: Id): L.Input {
    var price := Decimal.ToDecimal(order.price);
    L.Input(L.MembershipPurchase, ORDER, x.order, order.currency, LedgerKey(x.order), x.requestId, x.reviewer,
            [L.Posting(L.PlatformId(CLEARING, order.currency), L.Debit, price),
             L.Posting(L.PlatformId(FEE, order.currency), L.Credit, price)],
            None, None, env.attachments(x.order, order, x.evidence, membership))
  }

  function GrantOf(id: Id, order: Order, requestId: string, actor: Id): C.Mutation {
    C.GrantMutation(C.GrantInput(order.user, order.grant, ORDER, id, CreditKey(id), requestId, Some(actor)))
  }

  predicate EventTaken(events: seq<Event>, order: Id) {
    exists i :: 0 <= i < |events| && events[i].order == order
  }

  datatype Entitlement = Entitlement(memberships: seq<Membership>, id: Id, kind: EventKind, expires: Option<int>)

  datatype Entitled = Entitled(entitlement: Entitlement) | NotEntitled(error: Error)

  /** Extends the customer's current membership, or opens one. */
  function Entitle(env: Env, memberships: seq<Membership>, order: Order, newMembership: Id, now: int): Entitled {
    var current := CurrentOf(memberships, order.user);
    if |current| > 1 then NotEntitled(IntegrityConflict)
    else if |current| == 1 then
      var i := current[0];
      var m := memberships[i];
      match Extend(Some(TermOf(env.plans, m)), order.durationDays, now)
      case None => NotEntitled(LifetimeDowngrade)
      case Some(expires) =>
        var renewed := m.(plan := order.plan, status := Active,
                          startsAt := if m.startsAt.Some? then m.startsAt else Some(now), expiresAt := expires);
        Entitled(Entitlement(memberships[i := renewed], m.id, Renewed, expires))
    else if MembershipIdTaken(memberships, newMembership) then NotEntitled(ConstraintViolation)
    else
      match Extend(None, order.durationDays, now)
      case None => NotEntitled(LifetimeDowngrade)
      case Some(expires) =>
        var m := Membership(newMembership, order.user, order.plan, Active, Some(now), expires);
        Entitled(Entitlement(memberships + [m], newMembership, Started, expires))
  }

  datatype Purchase = Purchase(books: L.Books, transaction: Id) | NoPurchase(error: L.Error)

  /** The books with both platform accounts. */
  function ApprovalAccounts(books: L.Books, currency: string): Option<L.Books> {
    match L.EnsurePlatform(books, CLEARING, currency)
    case None => None
    case Some(b) => L.EnsurePlatform(b, FEE, currency)
  }

  function PostOn(env: Env, books: Option<L.Books>, input: L.Input, newTx: Id, newWallet: Id): Purchase {
    match books
    case None => NoPurchase(L.AccountMissing)
    case Some(b) =>
      match L.Post(env.ledgerHash, b, input, newTx, newWallet)
      case Err(e) => NoPurchase(e)
      case Ok(after, tx, _) => Purchase(after, tx)
  }

  function PostPurchase(env: Env, books: L.Books, x: DecideInput, order: Order, membership: Id, newTx: Id): Purchase {
    PostOn(env, ApprovalAccounts(books, order.currency), PurchaseInput(env, x, order, membership), newTx, "")
  }

  /** The evidence a decision may rest on: recorded for this order, of its amount and currency. */
  predicate EvidenceMatches(s: Shop, x: DecideInput, order: Order) {
    && x.evidence in s.evidence
    && var e := s.evidence[x.evidence];
       e.order == Some(x.order) && e.currency == order.currency && e.amount == order.price && e.status == Recorded
  }

  function Mark(evidence: map<Id, Evidence>, id: Id, status: EvidenceStatus): map<Id, Evidence>
    requires id in evidence
  {
    evidence[id := evidence[id].(status := status)]
  }

  function DecisionOf(x: DecideInput): Decision {
    Decision(x.order, x.reviewer, x.approve, x.note, x.evidence)
  }

  function Reject(s: Shop, x: DecideInput, order: Order): Outcome
    requires x.evidence in s.evidence
  {
    Ok(s.(decisions := s.decisions + [DecisionOf(x)],
          evidence := Mark(s.evidence, x.evidence, Refused),
          orders := s.orders[x.order := order.(status := Rejected, reviewedBy := Some(x.reviewer))]),
       OrderRejected(x.evidence))
  }

  /** Grants the credits and writes the entitlement event and the order, once the payment is posted. */
  function Activate(s: Shop, id: Id, order: Order, e: Entitlement, grant: C.Mutation, now: int, reply: Reply): Outcome {
    match C.Mutate(s.credits, grant)
    case Err(error) => Err(Credit(error))
    case Ok(credits, _) =>
      if EventTaken(s.events, id) then Err(ConstraintViolation)
      else
        Ok(s.(events := s.events + [Event(e.id, id, order.user, e.kind, now, e.expires)], credits := credits,
              orders := s.orders[id := order.(status := Activated, membership := Some(e.id))]),
           reply)
  }

  /** What an approval does once the decision and the entitlement are written. */
  function Conclude(env: Env, s: Shop, x: DecideInput, order: Order, e: Entitlement, newTx: Id, now: int): Outcome
    requires x.evidence in s.evidence
  {
    match PostPurchase(env, s.ledger, x, order, e.id, newTx)
    case NoPurchase(error) => Err(Ledger(error))
    case Purchase(books, tx) =>
      Activate(s.(ledger := books, evidence := Mark(s.evidence, x.evidence, Accepted)), x.order,
               order.(reviewedBy := Some(x.reviewer), transaction := Some(tx)), e,
               GrantOf(x.order, order, x.requestId, x.reviewer), now, OrderActivated(e.id, tx, x.evidence))
  }

  function Approve(env: Env, s: Shop, x: DecideInput, order: Order, ids: NewIds, now: int): Outcome
    requires x.evidence in s.evidence
  {
    match Entitle(env, s.memberships, order, ids.membership, now)
    case NotEntitled(e) => Err(e)
    case Entitled(e) =>
      Conclude(env, s.(decisions := s.decisions + [DecisionOf(x)], memberships := e.memberships), x, order, e,
               ids.transaction, now)
  }

  function Judge(env: Env, s: Shop, x: DecideInput, order: Order, ids: NewIds, now: int): Outcome {
    if order.status != PendingReview then Err(StateConflict)
    else if order.submittedBy.None? || order.submittedBy == Some(x.reviewer) then Err(MakerChecker)
    else if !EvidenceMatches(s, x, order) then Err(EvidenceMismatch)
    else if s.evidence[x.evidence].recordedBy == x.reviewer then Err(MakerChecker)
    else if x.approve then Approve(env, s, x, order, ids, now)
    else Reject(s, x, order)
  }

  function DecideOrder(env: Env, s: Shop, x: DecideInput, ids: NewIds, now: int): Outcome {
    if x.order !in s.orders then Err(OrderNotFound)
    else
      var order := s.orders[x.order];
      Claimed(s, DecideDescriptor(env, x, order), Judge(env, s, x, order, ids, now))
  }

  // ----- Paying from the wallet -----

  datatype PayInput = PayInput(order: Id, user: Id, requestId: string)

  predicate IsHeldBy(m: Membership, user: Id) {
    m.customer == user && (m.status == Active || m.status == Pending)
  }

  /** The rows a payment looks at, which are not those an approval looks at. */
  function HeldBy(memberships: seq<Membership>, user: Id): seq<nat> {
    Positions(memberships, m => IsHeldBy(m, user))
  }

  function PaidUntil(order: Order, now: int): Option<int> {
    if order.durationDays.None? then None else Some(now + order.durationDays.value * DAY)
  }

  /** A payment counts from its own time, whatever is left of the row it replaces. */
  function EntitlePaid(memberships: seq<Membership>, order: Order, newMembership: Id, now: int): Entitlement {
    var rows := HeldBy(memberships, order.user);
    var expires := PaidUntil(order, now);
    if rows == [] then
      var m := Membership(newMembership, order.user, order.plan, Active, Some(now), expires);
      Entitlement(memberships + [m], newMembership, Started, expires)
    else
      var m := memberships[rows[0]];
      var paid := m.(plan := order.plan, status := Active,
                     startsAt := if m.startsAt.Some? then m.startsAt else Some(now), expiresAt := expires);
      Entitlement(memberships[rows[0] := paid], m.id, Renewed, expires)
  }

  /** The customer's own account is debited and the fee account credited; the wallet falls by the price. */
  function WalletInput(env: Env, x: PayInput, order: Order, membership: Id): L.Input {
    var price := Decimal.ToDecimal(order.price);
    L.Input(L.MembershipPurchase, ORDER, x.order, order.currency, LedgerKey(x.order), x.requestId, order.user,
            [L.Posting(L.UserId(order.user, order.currency), L.Debit, price),
             L.Posting(L.PlatformId(FEE, order.currency), L.Credit, price)],
            None, Some(L.WalletMutation(order.user, "-" + price, "0")),
            env.walletAttachments(x.order, order, membership))
  }

  /** The books with the customer's account and the fee account. */
  function PaymentAccounts(books: L.Books, user: Id, currency: string): Option<L.Books> {
    match L.EnsureUser(books, user, currency)
    case None => None
    case Some(b) => L.EnsurePlatform(b, FEE, currency)
  }

  /** `wallet` is the id of a wallet that has to be opened. */
  datatype PayIds = PayIds(membership: Id, transaction: Id, wallet: Id)

  function PostPayment(env: Env, books: L.Books, x: PayInput, order: Order, membership: Id, ids: PayIds): Purchase {
    PostOn(env, PaymentAccounts(books, order.user, order.currency), WalletInput(env, x, order, membership),
           ids.transaction, ids.wallet)
  }

  /** What a payment does once the order and the rows are seen to be fit. */
  function ConcludePayment(env: Env, s: Shop, x: PayInput, order: Order, ids: PayIds, now: int): Outcome {
    var e := EntitlePaid(s.memberships, order, ids.membership, now);
    match PostPayment(env, s.ledger, x, order, e.id, ids)
    case NoPurchase(error) => Err(Ledger(error))
    case Purchase(books, tx) =>
      if e.kind == Started && MembershipIdTaken(s.memberships, e.id) then Err(ConstraintViolation)
      else
        Activate(s.(ledger := books, memberships := e.memberships), x.order, order.(transaction := Some(tx)), e,
                 GrantOf(x.order, order, x.requestId, order.user), now, OrderPaid(e.id, tx))
  }

  /** No key is claimed; evidence, if there is any, is not looked at; and the guard compares a plan version's id. */
  function PayOrder(env: Env, s: Shop, x: PayInput, ids: PayIds, now: int): Outcome {
    if x.order !in s.orders || s.orders[x.order].user != x.user then Err(OrderNotFound)
    else if s.orders[x.order].status != PendingEvidence then Err(NotPayable)
    else
      var order := s.orders[x.order];
      var rows := HeldBy(s.memberships, order.user);
      if |rows| > 1 then Err(IntegrityConflict)
      else if |rows| == 1 && s.memberships[rows[0]].plan == LIFETIME && order.durationDays.Some? then
        Err(LifetimeDowngrade)
      else ConcludePayment(env, s, x, order, ids, now)
  }

  // ----- Accepting the legal documents -----

  predicate IsPendingTrial(m: Membership, user: Id) {
    m.customer == user && m.plan == TRIAL && m.status == Pending
  }

  function TrialsOf(memberships: seq<Membership>, user: Id): seq<nat> {
    Positions(memberships, m => IsPendingTrial(m, user))
  }

  /** A pending invitation trial starts with the consent, for three days; None when there are several. */
  function ActivateTrial(memberships: seq<Membership>, user: Id, now: int): Option<seq<Membership>> {
    var trials := TrialsOf(memberships, user);
    if trials == [] then Some(memberships)
    else if |trials| > 1 then None
    else
      var i := trials[0];
      Some(memberships[i := memberships[i].(status := Active, startsAt := Some(now), expiresAt := Some(now + 3 * DAY))])
  }

  datatype AcceptInput = AcceptInput(user: Id, documents: seq<Id>, key: string)

  function AcceptDescriptor(env: Env, x: AcceptInput): Descriptor {
    var ids := Texts.SortedSet(x.documents);
    var joined := Join(ids);
    Descriptor(LegalAccept, x.key, x.user, UserSubject, x.user, Some(joined), AcceptStage, None,
               env.payloadHash(AcceptPayload(ids)), Some(LegalBundleSource), Some(joined), None)
  }

  function Join(ids: seq<string>): string {
    if ids == [] then "" else if |ids| == 1 then ids[0] else ids[0] + "," + Join(ids[1..])
  }

  function RecordConsent(env: Env, s: Shop, x: AcceptInput, now: int): Outcome {
    var board := D.RecordAcceptances(s.board, x.user, now);
    match ActivateTrial(s.memberships, x.user, now)
    case None => Err(TrialConflict)
    case Some(memberships) =>
      Ok(s.(board := board, memberships := memberships), Consent(D.ConsentComplete(env.digests, board, x.user, now)))
  }

  function AcceptDocuments(env: Env, s: Shop, x: AcceptInput, now: int): Outcome {
    if !D.ConfigurationComplete(env.digests, s.board.documents, now) then Err(ConfigurationIncomplete)
    else if !D.SuppliesCurrent(s.board, now, x.documents) then Err(AcceptanceRequired)
    else if D.ConsentComplete(env.digests, s.board, x.user, now) then
      match ActivateTrial(s.memberships, x.user, now)
      case None => Err(TrialConflict)
      case Some(memberships) => Ok(s.(memberships := memberships), Consent(true))
    else Claimed(s, AcceptDescriptor(env, x), RecordConsent(env, s, x, now))
  }

  // ----- Runs -----

  /** The last four are other services at work in the same tables. */
  datatype Step =
    | CreateStep(create: CreateInput, newOrder: Id, createdAt: int)
    | EvidenceStep(proof: EvidenceInput, newEvidence: Id, recordedAt: int)
    | SubmitStep(submit: SubmitInput)
    | DecideStep(decide: DecideInput, ids: NewIds, decidedAt: int)
    | PayStep(pay: PayInput, payIds: PayIds, paidAt: int)
    | AcceptStep(accept: AcceptInput, acceptedAt: int)
    | DisclosureStep(disclosure: D.Step)
    | LedgerStep(command: L.Command)
    | CreditStep(credit: C.Step)
    | LifecycleStep(position: nat, status: MembershipStatus)

  function Exec(env: Env, s: Shop, step: Step): Outcome
    requires !IsForeign(step)
  {
    match step
    case CreateStep(x, newId, now) => CreateOrder(env, s, x, newId, now)
    case EvidenceStep(x, newId, now) => RecordEvidence(env, s, x, newId, now)
    case SubmitStep(x) => SubmitOrder(env, s, x)
    case DecideStep(x, ids, now) => DecideOrder(env, s, x, ids, now)
    case PayStep(x, ids, now) => PayOrder(env, s, x, ids, now)
    case AcceptStep(x, now) => AcceptDocuments(env, s, x, now)
  }

  predicate IsForeign(step: Step) {
    step.DisclosureStep? || step.LedgerStep? || step.CreditStep? || step.LifecycleStep?
  }

  /** Other services use their own sources and keys. */
  predicate ForeignPost(input: L.Input) {
    input.sourceType != ORDER && !("membership-ledger:" <= input.key)
  }

  predicate ForeignEntry(e: C.Entry) {
    e.mutation.sourceType != ORDER && !("membership-credit:" <= e.mutation.key)
  }

  predicate ForeignCredit(before: seq<C.Entry>, after: seq<C.Entry>) {
    before <= after && forall i :: |before| <= i < |after| ==> ForeignEntry(after[i])
  }

  /** The shop after a call: an error leaves it as it was. */
  function After(s: Shop, o: Outcome): Shop {
    match o
    case Ok(next, _) => next
    case Err(_) => s
  }

  /** The transitions of the lifecycle job. */
  predicate Lapses(before: MembershipStatus, after: MembershipStatus) {
    (before == Active && (after == Grace || after == ReadOnly)) || (before == Grace && after == ReadOnly)
  }

  function Next(env: Env, s: Shop, step: Step): Shop {
    match step
    case DisclosureStep(d) => s.(board := D.Next(env.digests, s.board, d))
    case LedgerStep(c) => if ForeignPost(c.input) then s.(ledger := L.Next(env.ledgerHash, s.ledger, c)) else s
    case CreditStep(c) =>
      var credits := C.Next(s.credits, c);
      if ForeignCredit(s.credits.ledger, credits.ledger) then s.(credits := credits) else s
    case LifecycleStep(i, status) =>
      if i < |s.memberships| && Lapses(s.memberships[i].status, status)
      then s.(memberships := s.memberships[i := s.memberships[i].(status := status)]) else s
    case _ => After(s, Exec(env, s, step))
  }

  function Run(env: Env, s: Shop, steps: seq<Step>): Shop
    decreases |steps|
  {
    if steps == [] then s else Run(env, Next(env, s, steps[0]), steps[1..])
  }

  // ----- Steps as calls -----

  lemma NextCreate(env: Env, s: Shop, x: CreateInput, newId: Id, now: int)
    ensures Next(env, s, CreateStep(x, newId, now)) == After(s, CreateOrder(env, s, x, newId, now))
  {
    hide CreateOrder, RecordEvidence, SubmitOrder, DecideOrder, PayOrder, AcceptDocuments, L.Next, C.Next,
      D.Next;
  }

  lemma NextEvidence(env: Env, s: Shop, x: EvidenceInput, newId: Id, now: int)
    ensures Next(env, s, EvidenceStep(x, newId, now)) == After(s, RecordEvidence(env, s, x, newId, now))
  {
    hide CreateOrder, RecordEvidence, SubmitOrder, DecideOrder, PayOrder, AcceptDocuments, L.Next, C.Next,
      D.Next;
  }

  lemma NextSubmit(env: Env, s: Shop, x: SubmitInput)
    ensures Next(env, s, SubmitStep(x)) == After(s, SubmitOrder(env, s, x))
  {
    hide CreateOrder, RecordEvidence, SubmitOrder, DecideOrder, PayOrder, AcceptDocuments, L.Next, C.Next,
      D.Next;
  }

  lemma NextDecide(env: Env, s: Shop, x: DecideInput, ids: NewIds, now: int)
    ensures Next(env, s, DecideStep(x, ids, now)) == After(s, DecideOrder(env, s, x, ids, now))
  {
    hide CreateOrder, RecordEvidence, SubmitOrder, DecideOrder, PayOrder, AcceptDocuments, L.Next, C.Next,
      D.Next;
  }

  lemma NextPay(env: Env, s: Shop, x: PayInput, ids: PayIds, now: int)
    ensures Next(env, s, PayStep(x, ids, now)) == After(s, PayOrder(env, s, x, ids, now))
  {
    hide CreateOrder, RecordEvidence, SubmitOrder, DecideOrder, PayOrder, AcceptDocuments, L.Next, C.Next,
      D.Next;
  }

  lemma NextAccept(env: Env, s: Shop, x: AcceptInput, now: int)
    ensures Next(env, s, AcceptStep(x, now)) == After(s, AcceptDocuments(env, s, x, now))
  {
    hide CreateOrder, RecordEvidence, SubmitOrder, DecideOrder, PayOrder, AcceptDocuments, L.Next, C.Next,
      D.Next;
  }
}
