/** The membership service, sharing database transactions with the ledger, the credits and the legal documents. */
module MembershipService {
  import opened Common
  import opened Idempotency
  import opened Renewal
  import opened Membership
  import Decimal
  import C = Credits
  import D = Disclosure
  import L = Ledger
  import opened CreditService
  import opened DisclosureService
  import opened LedgerService

  datatype Result = Done(reply: Reply) | Failed(error: Error)

  ghost predicate Achieves(before: Shop, after: Shop, r: Result, o: Outcome) {
    match o
    case Ok(shop, reply) => after == shop && r == Done(reply)
    case Err(error) => after == before && r == Failed(error)
  }

  class CommercialMembershipService {
    const env: Env
    const legal: CommercialDisclosureService
    const ledger: CommercialLedger
    const credits: AiCreditService
    var orders: map<Id, Order>
    var evidence: map<Id, Evidence>
    var fingerprints: map<string, Id>
    var decisions: seq<Decision>
    var memberships: seq<Membership>
    var events: seq<Event>
    var records: Records<Reply>

    constructor (env: Env, legal: CommercialDisclosureService, ledger: CommercialLedger, credits: AiCreditService,
                 memberships: seq<Membership>)
      ensures this.env == env && this.legal == legal && this.ledger == ledger && this.credits == credits
      ensures State() == Shop(legal.State(), map[], map[], map[], [], memberships, [], ledger.State(), credits.State(),
                              map[])
    {
      this.env, this.legal, this.ledger, this.credits := env, legal, ledger, credits;
      orders, evidence, fingerprints, decisions := map[], map[], map[], [];
      this.memberships, events, records := memberships, [], map[];
    }

    function State(): Shop
      reads this, legal, ledger, credits
    {
      Shop(legal.State(), orders, evidence, fingerprints, decisions, memberships, events, ledger.State(),
           credits.State(), records)
    }

    method CreateMembershipOrder(x: CreateInput, newId: Id, now: int) returns (r: Result)
      modifies `orders, `records, legal`acceptances
      ensures Achieves(old(State()), State(), r, CreateOrder(env, old(State()), x, newId, now))
    {
      var d := CreateDescriptor(env, x);
      var claim := ClaimKey(records, d);
      if claim.Collision? {
        return Failed(KeyCollision);
      }
      if claim.Replay? {
        return Done(claim.response);
      }
      if x.plan !in env.plans || !env.plans[x.plan].active || env.plans[x.plan].effectiveAt > now {
        return Failed(PlanNotAvailable);
      }
      if !D.ConfigurationComplete(env.digests, legal.documents, now) {
        return Failed(ConfigurationIncomplete);
      }
      if !D.SuppliesCurrent(legal.State(), now, x.documents) {
        return Failed(AcceptanceRequired);
      }
      if newId in orders {
        return Failed(ConstraintViolation);
      }
      legal.InsertAcceptances(x.user, now);
      var p := env.plans[x.plan];
      orders := orders[newId :=
        Order(x.user, x.plan, p.price, p.currency, p.durationDays, p.grant, PendingEvidence, None, None, None, None)];
      records := CompleteKey(claim.records, Slot(d), OrderCreated(newId));
      return Done(OrderCreated(newId));
    }

    method RecordMembershipPaymentEvidence(x: EvidenceInput, newId: Id, now: int) returns (r: Result)
      modifies `evidence, `fingerprints, `records
      ensures Achieves(old(State()), State(), r, RecordEvidence(env, old(State()), x, newId, now))
    {
      if !EvidenceValid(x, now) {
        return Failed(ValidationFailed);
      }
      if x.order !in orders {
        return Failed(OrderNotFound);
      }
      var order := orders[x.order];
      var d := EvidenceDescriptor(env, x, order.user);
      var claim := ClaimKey(records, d);
      if claim.Collision? {
        return Failed(KeyCollision);
      }
      if claim.Replay? {
        return Done(claim.response);
      }
      if order.status != PendingEvidence {
        return Failed(StateConflict);
      }
      var row := EvidenceRow(env, x);
      var id := newId;
      if row.fingerprint in fingerprints && fingerprints[row.fingerprint] in evidence {
        id := fingerprints[row.fingerprint];
        if evidence[id].(status := Recorded) != row {
          return Failed(ReferenceCollision);
        }
      } else if newId in evidence {
        return Failed(ReferenceCollision);
      } else {
        evidence := evidence[newId := row];
        fingerprints := fingerprints[row.fingerprint := newId];
      }
      records := CompleteKey(claim.records, Slot(d), EvidenceKept(id));
      return Done(EvidenceKept(id));
    }

    method SubmitMembershipOrder(x: SubmitInput) returns (r: Result)
      modifies `orders, `records
      ensures Achieves(old(State()), State(), r, SubmitOrder(env, old(State()), x))
    {
      if x.order !in orders {
        return Failed(OrderNotFound);
      }
      var order := orders[x.order];
      var d := SubmitDescriptor(env, x, order.user);
      var claim := ClaimKey(records, d);
      if claim.Collision? {
        return Failed(KeyCollision);
      }
      if claim.Replay? {
        return Done(claim.response);
      }
      if order.status != PendingEvidence {
        return Failed(StateConflict);
      }
      if !HasEvidence(evidence, x.order) {
        return Failed(EvidenceRequired);
      }
      orders := orders[x.order := order.(status := PendingReview, submittedBy := Some(x.actor))];
      records := CompleteKey(claim.records, Slot(d), OrderSubmitted);
      return Done(OrderSubmitted);
    }

    method Rollback(saved: Shop)
      requires saved.board == legal.State()
      modifies this, ledger, credits
      ensures State() == saved
    {
      ledger.Rollback(saved.ledger);
      credits.Rollback(saved.credits);
      orders, evidence, fingerprints, decisions := saved.orders, saved.evidence, saved.fingerprints, saved.decisions;
      memberships, events, records := saved.memberships, saved.events, saved.records;
    }

    /** Extends or opens the customer's membership; a refusal leaves the table alone. */
    method EntitleCustomer(order: Order, newMembership: Id, now: int) returns (r: Entitled)
      modifies `memberships
      ensures r == Entitle(env, old(memberships), order, newMembership, now)
      ensures memberships == if r.Entitled? then r.entitlement.memberships else old(memberships)
    {
      var current := CurrentOf(memberships, order.user);
      if |current| > 1 {
        return NotEntitled(IntegrityConflict);
      }
      if |current| == 1 {
        var i := current[0];
        var m := memberships[i];
        var extended := Extend(Some(TermOf(env.plans, m)), order.durationDays, now);
        if extended.None? {
          return NotEntitled(LifetimeDowngrade);
        }
        var startsAt := if m.startsAt.Some? then m.startsAt else Some(now);
        memberships := memberships[i :=
          m.(plan := order.plan, status := Active, startsAt := startsAt, expiresAt := extended.value)];
        return Entitled(Entitlement(memberships, m.id, Renewed, extended.value));
      }
      if MembershipIdTaken(memberships, newMembership) {
        return NotEntitled(ConstraintViolation);
      }
      var extended := Extend(None, order.durationDays, now);
      memberships := memberships +
        [Membership(newMembership, order.user, order.plan, Active, Some(now), extended.value)];
      return Entitled(Entitlement(memberships, newMembership, Started, extended.value));
    }

    /** Opens the platform accounts and posts the purchase. */
    method PostMembershipPurchase(x: DecideInput, order: Order, membership: Id, newTx: Id) returns (r: Purchase)
      requires ledger.hash == env.ledgerHash
      modifies ledger
      ensures r == PostPurchase(env, old(ledger.State()), x, order, membership, newTx)
      ensures r.Purchase? ==> ledger.State() == r.books
    {
      var ok := ledger.EnsurePlatformAccount(CLEARING, order.currency);
      if !ok {
        return NoPurchase(L.AccountMissing);
      }
      ok := ledger.EnsurePlatformAccount(FEE, order.currency);
      if !ok {
        return NoPurchase(L.AccountMissing);
      }
      var posted := ledger.PostTransaction(PurchaseInput(env, x, order, membership), newTx, "");
      if posted.Failure? {
        return NoPurchase(posted.error);
      }
      return Purchase(ledger.State(), posted.id);
    }

    /** Grants the credits and writes the entitlement event and the order; after a failure the caller rolls back. */
    method ActivateOrder(id: Id, order: Order, e: Entitlement, grant: C.Mutation, now: int, reply: Reply)
      returns (r: Result)
      modifies this, credits
      ensures match Activate(old(State()), id, order, e, grant, now, reply)
        case Ok(shop, answer) => r == Done(answer) && State() == shop
        case Err(error) => r == Failed(error)
    {
      var granted := credits.MutateAiCredits(grant);
      if granted.Failure? {
        return Failed(Credit(granted.error));
      }
      if EventTaken(events, id) {
        return Failed(ConstraintViolation);
      }
      events := events + [Event(e.id, id, order.user, e.kind, now, e.expires)];
      orders := orders[id := order.(status := Activated, membership := Some(e.id))];
      return Done(reply);
    }

    /** Posts the purchase, accepts the evidence and activates the order; after a failure the caller rolls back. */
    method ConcludeApproval(x: DecideInput, order: Order, e: Entitlement, newTx: Id, now: int) returns (r: Result)
      requires x.evidence in evidence && ledger.hash == env.ledgerHash
      modifies this, ledger, credits
      ensures match Conclude(env, old(State()), x, order, e, newTx, now)
        case Ok(shop, reply) => r == Done(reply) && State() == shop
        case Err(error) => r == Failed(error)
    {
      var purchase := PostMembershipPurchase(x, order, e.id, newTx);
      if purchase.NoPurchase? {
        return Failed(Ledger(purchase.error));
      }
      evidence := Mark(evidence, x.evidence, Accepted);
      var paid := order.(reviewedBy := Some(x.reviewer), transaction := Some(purchase.transaction));
      r := ActivateOrder(x.order, paid, e, GrantOf(x.order, order, x.requestId, x.reviewer), now,
                         OrderActivated(e.id, purchase.transaction, x.evidence));
    }

    /** Everything an approval does; after a failure the caller rolls back. */
    method TryApprove(x: DecideInput, order: Order, ids: NewIds, now: int) returns (r: Result)
      requires x.evidence in evidence && ledger.hash == env.ledgerHash
      modifies this, ledger, credits
      ensures match Approve(env, old(State()), x, order, ids, now)
        case Ok(shop, reply) => r == Done(reply) && State() == shop
        case Err(error) => r == Failed(error)
    {
      decisions := decisions + [DecisionOf(x)];
      var entitled := EntitleCustomer(order, ids.membership, now);
      if entitled.NotEntitled? {
        return Failed(entitled.error);
      }
      var e := entitled.entitlement;
      ghost var s := old(State());
      assert State() == s.(decisions := s.decisions + [DecisionOf(x)], memberships := e.memberships);
      r := ConcludeApproval(x, order, e, ids.transaction, now);
    }

    method ApproveOrder(x: DecideInput, order: Order, ids: NewIds, now: int) returns (r: Result)
      requires x.evidence in evidence && ledger.hash == env.ledgerHash
      modifies this, ledger, credits
      ensures Achieves(old(State()), State(), r, Approve(env, old(State()), x, order, ids, now))
    {
      var saved := State();
      r := TryApprove(x, order, ids, now);
      if r.Failed? {
        Rollback(saved);
      }
    }

    method JudgeOrder(x: DecideInput, order: Order, ids: NewIds, now: int) returns (r: Result)
      requires ledger.hash == env.ledgerHash
      modifies this, ledger, credits
      ensures Achieves(old(State()), State(), r, Judge(env, old(State()), x, order, ids, now))
      ensures records == old(records)
    {
      if order.status != PendingReview {
        return Failed(StateConflict);
      }
      if order.submittedBy.None? || order.submittedBy == Some(x.reviewer) {
        return Failed(MakerChecker);
      }
      if !EvidenceMatches(State(), x, order) {
        return Failed(EvidenceMismatch);
      }
      if evidence[x.evidence].recordedBy == x.reviewer {
        return Failed(MakerChecker);
      }
      if x.approve {
        r := ApproveOrder(x, order, ids, now);
      } else {
        decisions := decisions + [DecisionOf(x)];
        evidence := Mark(evidence, x.evidence, Refused);
        orders := orders[x.order := order.(status := Rejected, reviewedBy := Some(x.reviewer))];
        r := Done(OrderRejected(x.evidence));
      }
    }

    method DecideMembershipOrder(x: DecideInput, ids: NewIds, now: int) returns (r: Result)
      requires ledger.hash == env.ledgerHash
      modifies this, ledger, credits
      ensures Achieves(old(State()), State(), r, DecideOrder(env, old(State()), x, ids, now))
    {
      if x.order !in orders {
        return Failed(OrderNotFound);
      }
      var order := orders[x.order];
      var d := DecideDescriptor(env, x, order);
      var claim := ClaimKey(records, d);
      if claim.Collision? {
        return Failed(KeyCollision);
      }
      if claim.Replay? {
        return Done(claim.response);
      }
      r := JudgeOrder(x, order, ids, now);
      if r.Done? {
        records := CompleteKey(claim.records, Slot(d), r.reply);
      }
    }

    /** Opens the accounts and posts the payment. */
    method PostWalletPayment(x: PayInput, order: Order, membership: Id, ids: PayIds) returns (r: Purchase)
      requires ledger.hash == env.ledgerHash
      modifies ledger
      ensures r == PostPayment(env, old(ledger.State()), x, order, membership, ids)
      ensures r.Purchase? ==> ledger.State() == r.books
    {
      var ok := ledger.EnsureUserAvailableAccount(order.user, order.currency);
      if !ok {
        return NoPurchase(L.AccountMissing);
      }
      ok := ledger.EnsurePlatformAccount(FEE, order.currency);
      if !ok {
        return NoPurchase(L.AccountMissing);
      }
      var posted := ledger.PostTransaction(WalletInput(env, x, order, membership), ids.transaction, ids.wallet);
      if posted.Failure? {
        return NoPurchase(posted.error);
      }
      return Purchase(ledger.State(), posted.id);
    }

    /** Renews the held row, or inserts one; a taken id leaves the table alone. */
    method WritePaidMembership(order: Order, newMembership: Id, now: int) returns (ok: bool)
      modifies `memberships
      ensures var e := EntitlePaid(old(memberships), order, newMembership, now);
        && (ok <==> !(e.kind == Started && MembershipIdTaken(old(memberships), e.id)))
        && memberships == if ok then e.memberships else old(memberships)
    {
      var rows := HeldBy(memberships, order.user);
      var expiresAt := PaidUntil(order, now);
      if rows != [] {
        var m := memberships[rows[0]];
        var startsAt := if m.startsAt.Some? then m.startsAt else Some(now);
        memberships := memberships[rows[0] :=
          m.(plan := order.plan, status := Active, startsAt := startsAt, expiresAt := expiresAt)];
        return true;
      }
      if MembershipIdTaken(memberships, newMembership) {
        return false;
      }
      memberships := memberships + [Membership(newMembership, order.user, order.plan, Active, Some(now), expiresAt)];
      return true;
    }

    /** Posts, writes the membership and activates the order; after a failure the caller rolls back. */
    method TryPay(x: PayInput, order: Order, ids: PayIds, now: int) returns (r: Result)
      requires ledger.hash == env.ledgerHash
      modifies this, ledger, credits
      ensures match ConcludePayment(env, old(State()), x, order, ids, now)
        case Ok(shop, reply) => r == Done(reply) && State() == shop
        case Err(error) => r == Failed(error)
    {
      var e := EntitlePaid(memberships, order, ids.membership, now);
      var purchase := PostWalletPayment(x, order, e.id, ids);
      if purchase.NoPurchase? {
        return Failed(Ledger(purchase.error));
      }
      var ok := WritePaidMembership(order, ids.membership, now);
      if !ok {
        return Failed(ConstraintViolation);
      }
      r := ActivateOrder(x.order, order.(transaction := Some(purchase.transaction)), e,
                         GrantOf(x.order, order, x.requestId, order.user), now, OrderPaid(e.id, purchase.transaction));
    }

    method PayMembershipOrderFromWallet(x: PayInput, ids: PayIds, now: int) returns (r: Result)
      requires ledger.hash == env.ledgerHash
      modifies this, ledger, credits
      ensures Achieves(old(State()), State(), r, PayOrder(env, old(State()), x, ids, now))
    {
      if x.order !in orders || orders[x.order].user != x.user {
        return Failed(OrderNotFound);
      }
      var order := orders[x.order];
      if order.status != PendingEvidence {
        return Failed(NotPayable);
      }
      var rows := HeldBy(memberships, order.user);
      if |rows| > 1 {
        return Failed(IntegrityConflict);
      }
      if |rows| == 1 && memberships[rows[0]].plan == LIFETIME && order.durationDays.Some? {
        return Failed(LifetimeDowngrade);
      }
      var saved := State();
      r := TryPay(x, order, ids, now);
      if r.Failed? {
        Rollback(saved);
      }
    }

    method ActivatePendingInvitationTrial(user: Id, now: int) returns (ok: bool)
      modifies `memberships
      ensures match ActivateTrial(old(memberships), user, now)
        case None => !ok && memberships == old(memberships)
        case Some(updated) => ok && memberships == updated
    {
      var trials := TrialsOf(memberships, user);
      if |trials| > 1 {
        return false;
      }
      if |trials| == 1 {
        var i := trials[0];
        memberships := memberships[i :=
          memberships[i].(status := Active, startsAt := Some(now), expiresAt := Some(now + 3 * DAY))];
      }
      return true;
    }

    method AcceptCurrentLegalDocuments(x: AcceptInput, now: int) returns (r: Result)
      requires legal.digests == env.digests
      modifies `memberships, `records, legal`acceptances
      ensures Achieves(old(State()), State(), r, AcceptDocuments(env, old(State()), x, now))
    {
      if !D.ConfigurationComplete(env.digests, legal.documents, now) {
        return Failed(ConfigurationIncomplete);
      }
      if !D.SuppliesCurrent(legal.State(), now, x.documents) {
        return Failed(AcceptanceRequired);
      }
      if D.ConsentComplete(env.digests, legal.State(), x.user, now) {
        var ok := ActivatePendingInvitationTrial(x.user, now);
        return if ok then Done(Consent(true)) else Failed(TrialConflict);
      }
      var d := AcceptDescriptor(env, x);
      var claim := ClaimKey(records, d);
      if claim.Collision? {
        return Failed(KeyCollision);
      }
      if claim.Replay? {
        return Done(claim.response);
      }
      var ok := ActivatePendingInvitationTrial(x.user, now);
      if !ok {
        return Failed(TrialConflict);
      }
      legal.InsertAcceptances(x.user, now);
      var reply := Consent(D.ConsentComplete(env.digests, legal.State(), x.user, now));
      records := CompleteKey(claim.records, Slot(d), reply);
      return Done(reply);
    }
  }
}
