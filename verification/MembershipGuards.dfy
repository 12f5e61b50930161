/** Which calls on an order go through, and what they write. */
module MembershipGuards {
  import opened Common
  import opened Idempotency
  import opened Renewal
  import opened Membership
  import opened MembershipLaws
  import opened MembershipRuns
  import opened MembershipWallet
  import Consent = MembershipConsent
  import Decimal
  import C = Credits
  import CL = CreditLaws
  import CA = CreditAnswers
  import D = Disclosure
  import L = Ledger
  import LL = LedgerLaws

  // ----- Ordering -----

  /**
   * Under an unused key and with a new id, an order is accepted exactly if its plan version is on sale and the
   * customer names exactly the documents in force, which are complete.
   */
  lemma OrderedIff(env: Env, s: Shop, x: CreateInput, newId: Id, now: int)
    requires newId !in s.orders && (OrderCreate, x.key) !in s.records
    ensures CreateOrder(env, s, x, newId, now).Ok? <==>
      && x.plan in env.plans && env.plans[x.plan].active && env.plans[x.plan].effectiveAt <= now
      && D.ConfigurationComplete(env.digests, s.board.documents, now)
      && forall id :: id in x.documents <==> id in D.CurrentIds(s.board, now)
  {
    hide D.ConfigurationComplete, D.CurrentIds, D.RecordAcceptances;
    Consent.SuppliesIff(s.board, now, x.documents);
  }

  // ----- Evidence -----

  /** Of a known kind, with a readable positive amount of USDT, no more than five minutes ahead, and short enough. */
  predicate IsPresentable(x: EvidenceInput, now: int) {
    && (x.kind == BankTransfer || x.kind == ManualInvoice || x.kind == ProviderReference)
    && Decimal.ParsePlain(x.amount).Some? && Decimal.ParsePlain(x.amount).value >= 1 && x.currency == "USDT"
    && x.occurredAt.Some? && x.occurredAt.value - now <= 5 * 60 * 1000
    && !IsBlank(x.reference) && |x.reference| <= 256 && (x.note.Some? ==> |x.note.value| <= 500)
  }

  /** What such evidence says. */
  function Shown(env: Env, x: EvidenceInput): Evidence
    requires x.occurredAt.Some? && Decimal.ParsePlain(x.amount).Some?
  {
    Evidence(Some(x.order), x.kind,
             match x.provider { case None => None case Some(p) => Some(if |p| <= 80 then p else p[..80]) },
             env.fingerprint(x.reference), Decimal.ParsePlain(x.amount).value, "USDT", x.occurredAt.value,
             match x.note { case None => "" case Some(n) => n }, x.actor, Recorded)
  }

  /**
   * Under an unused key and with a new id: evidence is kept exactly if it is presentable, its order is still waiting
   * for evidence, and its reference is new or was recorded with the very same contents; a new reference is kept as
   * it was shown, and a known one stays as it is.
   */
  lemma EvidenceKeptIff(env: Env, s: Shop, x: EvidenceInput, newId: Id, now: int)
    requires x.order in s.orders && newId !in s.evidence && (OrderEvidence, x.key) !in s.records
    ensures var known := env.fingerprint(x.reference) in s.fingerprints
        && s.fingerprints[env.fingerprint(x.reference)] in s.evidence;
      var out := RecordEvidence(env, s, x, newId, now);
      && (out.Ok? <==>
            && IsPresentable(x, now) && s.orders[x.order].status == PendingEvidence
            && (known ==>
                 s.evidence[s.fingerprints[env.fingerprint(x.reference)]].(status := Recorded) == Shown(env, x)))
      && (out.Ok? ==>
            && out.reply ==
               EvidenceKept(if known then s.fingerprints[env.fingerprint(x.reference)] else newId)
            && out.shop.evidence == (if known then s.evidence else s.evidence[newId := Shown(env, x)])
            && out.shop.orders == s.orders)
  {
    hide Decimal.ParsePlain, IsBlank;
  }

  // ----- Submitting -----

  /** Under an unused key an order is submitted exactly if it is waiting for evidence and has some; by whom is noted. */
  lemma SubmittedIff(env: Env, s: Shop, x: SubmitInput)
    requires x.order in s.orders && (OrderSubmit, x.key) !in s.records
    ensures var out := SubmitOrder(env, s, x);
      && (out.Ok? <==>
            && s.orders[x.order].status == PendingEvidence
            && exists e :: e in s.evidence && s.evidence[e].order == Some(x.order))
      && (out.Ok? ==>
            && out.reply == OrderSubmitted && out.shop.evidence == s.evidence
            && out.shop.orders ==
               s.orders[x.order := s.orders[x.order].(status := PendingReview, submittedBy := Some(x.actor))])
  {
  }

  // ----- Deciding -----

  /** By somebody else than who submitted the order or recorded the evidence, which is of its price, and unjudged. */
  predicate MayJudge(s: Shop, x: DecideInput, order: Order) {
    && order.status == PendingReview && order.submittedBy.Some? && order.submittedBy.value != x.reviewer
    && x.evidence in s.evidence
    && var e := s.evidence[x.evidence];
       && e.order == Some(x.order) && e.status == Recorded && e.recordedBy != x.reviewer
       && e.amount == order.price && e.currency == order.currency
  }

  /** A rejection under an unused key goes through exactly for such a person, and settles the order and the evidence. */
  lemma RejectedIff(env: Env, s: Shop, x: DecideInput, ids: NewIds, now: int)
    requires x.order in s.orders && (OrderDecision, x.key) !in s.records && !x.approve
    ensures var order, out := s.orders[x.order], DecideOrder(env, s, x, ids, now);
      && (out.Ok? <==> MayJudge(s, x, order))
      && (out.Ok? ==>
            && out.reply == OrderRejected(x.evidence)
            && out.shop.orders == s.orders[x.order := order.(status := Rejected, reviewedBy := Some(x.reviewer))]
            && out.shop.evidence == s.evidence[x.evidence := s.evidence[x.evidence].(status := Refused)]
            && out.shop.decisions == s.decisions + [Decision(x.order, x.reviewer, false, x.note, x.evidence)]
            && out.shop.memberships == s.memberships && out.shop.ledger == s.ledger && out.shop.credits == s.credits)
  {
    hide Approve;
  }

  lemma ApprovedOnlyIf(env: Env, s: Shop, x: DecideInput, ids: NewIds, now: int)
    requires x.order in s.orders && (OrderDecision, x.key) !in s.records && x.approve
    ensures DecideOrder(env, s, x, ids, now).Ok? <==>
      MayJudge(s, x, s.orders[x.order]) && Approve(env, s, x, s.orders[x.order], ids, now).Ok?
    ensures DecideOrder(env, s, x, ids, now).Ok? ==>
      var out, work := DecideOrder(env, s, x, ids, now), Approve(env, s, x, s.orders[x.order], ids, now);
      out.shop == work.shop.(records := out.shop.records) && out.reply == work.reply
  {
    hide Approve;
  }

  // ----- What an activation writes -----

  /** The row of a membership after an order took effect on it. */
  function Entitling(m: Membership, order: Order, now: int, expires: Option<int>): Membership {
    Membership(m.id, m.customer, order.plan, Active, if m.startsAt.Some? then m.startsAt else Some(now), expires)
  }

  /** The order's row, event and membership agree: who is entitled by it, to what, from when and until when. */
  predicate TakesEffect(before: Shop, after: Shop, id: Id, rows: seq<nat>, now: int)
    requires id in before.orders && forall k :: 0 <= k < |rows| ==> rows[k] < |before.memberships|
  {
    && id in after.orders && |after.events| == |before.events| + 1
    && after.events[..|before.events|] == before.events
    && var order, e := before.orders[id], after.events[|before.events|];
    && e.order == id && e.user == order.user && e.validFrom == now
    && after.orders[id].membership == Some(e.membership) && after.orders[id].status == Activated
    && (rows == [] ==>
         && e.kind == Started
         && after.memberships ==
            before.memberships + [Membership(e.membership, order.user, order.plan, Active, Some(now), e.validUntil)])
    && (rows != [] ==>
         && e.kind == Renewed && e.membership == before.memberships[rows[0]].id
         && after.memberships ==
            before.memberships[rows[0] := Entitling(before.memberships[rows[0]], order, now, e.validUntil)])
  }

  lemma EntitleWrites(env: Env, memberships: seq<Membership>, order: Order, newMembership: Id, now: int)
    requires Entitle(env, memberships, order, newMembership, now).Entitled?
    ensures var e, current := Entitle(env, memberships, order, newMembership, now).entitlement,
                              CurrentOf(memberships, order.user);
      && |current| <= 1
      && (current == [] ==>
           && e.kind == Started && e.id == newMembership
           && e.memberships == memberships +
                [Membership(newMembership, order.user, order.plan, Active, Some(now), e.expires)])
      && (current != [] ==>
           && e.kind == Renewed && e.id == memberships[current[0]].id
           && e.memberships == memberships[current[0] := Entitling(memberships[current[0]], order, now, e.expires)])
  {
  }

  lemma ActivateWrites(s: Shop, id: Id, order: Order, e: Entitlement, grant: C.Mutation, now: int, reply: Reply)
    requires Activate(s, id, order, e, grant, now, reply).Ok?
    ensures var out := Activate(s, id, order, e, grant, now, reply);
      && out.reply == reply && out.shop.events == s.events + [Event(e.id, id, order.user, e.kind, now, e.expires)]
      && out.shop.memberships == s.memberships && out.shop.decisions == s.decisions && out.shop.evidence == s.evidence
      && out.shop.orders == s.orders[id := order.(status := Activated, membership := Some(e.id))]
  {
    hide C.Mutate;
  }

  /** An approval takes effect on the customer's current membership, if there is one, and is itself recorded. */
  lemma ApprovalWrites(env: Env, s: Shop, x: DecideInput, ids: NewIds, now: int)
    requires Judged(s, x) && x.approve && Approve(env, s, x, s.orders[x.order], ids, now).Ok?
    ensures var order, out := s.orders[x.order], Approve(env, s, x, s.orders[x.order], ids, now);
      && TakesEffect(s, out.shop, x.order, CurrentOf(s.memberships, order.user), now)
      && out.reply.OrderActivated? && out.reply.evidence == x.evidence
      && Some(out.reply.membership) == out.shop.orders[x.order].membership
      && Some(out.reply.transaction) == out.shop.orders[x.order].transaction
      && out.shop.decisions == s.decisions + [Decision(x.order, x.reviewer, true, x.note, x.evidence)]
      && out.shop.orders == s.orders[x.order := order.(status := Activated, reviewedBy := Some(x.reviewer),
           membership := Some(out.reply.membership), transaction := Some(out.reply.transaction))]
      && out.shop.evidence == s.evidence[x.evidence := s.evidence[x.evidence].(status := Accepted)]
  {
    hide Entitle, PostPurchase, Activate, Approve, CurrentOf;
    ApproveActivates(env, s, x, ids, now);
    var order := s.orders[x.order];
    var e := Entitle(env, s.memberships, order, ids.membership, now).entitlement;
    var tx := PostPurchase(env, s.ledger, x, order, e.id, ids.transaction).transaction;
    EntitleWrites(env, s.memberships, order, ids.membership, now);
    ActivateWrites(Prepared(env, s, x, e, ids.transaction), x.order,
                   order.(reviewedBy := Some(x.reviewer), transaction := Some(tx)), e,
                   GrantOf(x.order, order, x.requestId, x.reviewer), now, OrderActivated(e.id, tx, x.evidence));
  }

  /** A payment takes effect on the customer's active or waiting membership, for its own duration from now. */
  lemma PaymentWrites(env: Env, s: Shop, x: PayInput, ids: PayIds, now: int)
    requires PayOrder(env, s, x, ids, now).Ok?
    ensures x.order in s.orders && s.orders[x.order].user == x.user && s.orders[x.order].status == PendingEvidence
    ensures var order, out := s.orders[x.order], PayOrder(env, s, x, ids, now);
      && TakesEffect(s, out.shop, x.order, HeldBy(s.memberships, x.user), now)
      && out.shop.events[|s.events|].validUntil ==
         (match order.durationDays { case None => None case Some(days) => Some(now + days * 24 * 60 * 60 * 1000) })
      && out.reply.OrderPaid? && Some(out.reply.membership) == out.shop.orders[x.order].membership
      && Some(out.reply.transaction) == out.shop.orders[x.order].transaction
      && out.shop.orders == s.orders[x.order := order.(status := Activated,
           membership := Some(out.reply.membership), transaction := Some(out.reply.transaction))]
      && out.shop.evidence == s.evidence && out.shop.decisions == s.decisions && out.shop.records == s.records
  {
    hide EntitlePaid, PostPayment, Activate, PayOrder, HeldBy;
    PaymentActivates(env, s, x, ids, now);
    var order := s.orders[x.order];
    var e := EntitlePaid(s.memberships, order, ids.membership, now);
    var paid := PostPayment(env, s.ledger, x, order, e.id, ids);
    PaymentEntitling(s.memberships, order, ids.membership, now);
    ActivateWrites(s.(ledger := paid.books, memberships := e.memberships), x.order,
                   order.(transaction := Some(paid.transaction)), e, GrantOf(x.order, order, x.requestId, order.user),
                   now, OrderPaid(e.id, paid.transaction));
    ActivateKeepsRecords(s.(ledger := paid.books, memberships := e.memberships), x.order,
                         order.(transaction := Some(paid.transaction)), e,
                         GrantOf(x.order, order, x.requestId, order.user), now, OrderPaid(e.id, paid.transaction));
  }

  lemma ActivateKeepsRecords(s: Shop, id: Id, order: Order, e: Entitlement, grant: C.Mutation, now: int, reply: Reply)
    requires Activate(s, id, order, e, grant, now, reply).Ok?
    ensures Activate(s, id, order, e, grant, now, reply).shop.records == s.records
  {
    hide C.Mutate;
  }

  lemma PaymentEntitling(memberships: seq<Membership>, order: Order, newMembership: Id, now: int)
    ensures var e, held := EntitlePaid(memberships, order, newMembership, now), HeldBy(memberships, order.user);
      && e.expires == (match order.durationDays {
           case None => None case Some(days) => Some(now + days * 24 * 60 * 60 * 1000) })
      && (held == [] ==>
           && e.kind == Started && e.id == newMembership
           && e.memberships == memberships +
                [Membership(newMembership, order.user, order.plan, Active, Some(now), e.expires)])
      && (held != [] ==>
           && e.kind == Renewed && e.id == memberships[held[0]].id
           && e.memberships == memberships[held[0] := Entitling(memberships[held[0]], order, now, e.expires)])
  {
  }

  // ----- When an activation goes through -----

  /** The account is there and active, or can be opened. */
  predicate IsReady(books: L.Books, id: Id, owner: L.Owner, accountType: string, currency: string) {
    id in books.accounts ==> books.accounts[id] == L.Account(accountType, currency, true, owner)
  }

  lemma EnsureReady(books: L.Books, id: Id, owner: L.Owner, accountType: string, currency: string)
    requires IsReady(books, id, owner, accountType, currency)
    ensures L.Ensure(books, id, owner, accountType, currency) ==
      Some(books.(accounts := books.accounts[id := L.Account(accountType, currency, true, owner)]))
  {
    if id in books.accounts {
      assert books.accounts[id := books.accounts[id]] == books.accounts;
    }
  }

  /** A transaction under a free key of an order, and with a new id, meets none of the unique indexes. */
  lemma ChargeIsInsertable(h: L.Hasher, b: L.Books, input: L.Input, newTx: Id, id: Id, order: Order)
    requires LedgerKeys(b.transactions) && L.TransactionByKey(b.transactions, LedgerKey(id)).None?
    requires IsCharge(input, id, order) && input.reversal.None? && !L.HasTransaction(b.transactions, newTx)
    ensures L.Insertable(b.transactions, L.TransactionOf(h, input, newTx, true))
  {
    var t := L.TransactionOf(h, input, newTx, true);
    forall i | 0 <= i < |b.transactions| ensures !L.Clash(b.transactions[i], t) {
      KeyIsNot(b.transactions, LedgerKey(id), i);
    }
  }

  lemma {:induction false} KeyIsNot(transactions: seq<L.Transaction>, key: string, i: nat)
    requires i < |transactions| && L.TransactionByKey(transactions, key).None?
    ensures transactions[i].key != key
  {
    if i < |transactions| - 1 {
      KeyIsNot(transactions[..|transactions| - 1], key, i);
    }
  }

  lemma PairPasses(from: Id, to: Id, price: nat)
    requires price > 0
    ensures var text := Decimal.ToDecimal(price);
      L.CheckPostings([L.Posting(from, L.Debit, text), L.Posting(to, L.Credit, text)]).None?
  {
    Decimal.UnitsRoundTrip(price);
    PairTotals(from, to, price);
    hide Decimal.ToDecimal, L.Total;
    var text := Decimal.ToDecimal(price);
    var a, b := L.Posting(from, L.Debit, text), L.Posting(to, L.Credit, text);
    assert [a, b][..1] == [a] && [a][..0] == [];
    assert L.FirstBad([]).None?;
    assert L.FirstBad([a]).None?;
    assert L.FirstBad([a, b]).None?;
  }

  /** Two accounts of the currency, which are there and active. */
  predicate PairReady(b: L.Books, from: Id, to: Id, currency: string) {
    && from in b.accounts && b.accounts[from].currency == currency && b.accounts[from].active
    && to in b.accounts && b.accounts[to].currency == currency && b.accounts[to].active
  }

  lemma ApprovalPosts(env: Env, books: L.Books, x: DecideInput, order: Order, membership: Id, newTx: Id)
    requires LedgerKeys(books.transactions) && L.TransactionByKey(books.transactions, LedgerKey(x.order)).None?
    requires order.price > 0 && !L.HasTransaction(books.transactions, newTx)
    requires IsReady(books, L.PlatformId(CLEARING, order.currency), L.Platform, CLEARING, order.currency)
    requires IsReady(books, L.PlatformId(FEE, order.currency), L.Platform, FEE, order.currency)
    ensures PostPurchase(env, books, x, order, membership, newTx).Purchase?
  {
    hide L.CheckPostings, L.Insertable, L.TransactionByKey, L.HasTransaction, LedgerKeys, Decimal.ToDecimal, L.RowsOf,
      L.Lower;
    var clearing, fee := L.PlatformId(CLEARING, order.currency), L.PlatformId(FEE, order.currency);
    PlatformsDiffer(order.currency);
    EnsureReady(books, clearing, L.Platform, CLEARING, order.currency);
    var b1 := L.EnsurePlatform(books, CLEARING, order.currency).value;
    EnsureReady(b1, fee, L.Platform, FEE, order.currency);
    var b2 := L.EnsurePlatform(b1, FEE, order.currency).value;
    PurchaseIsCharge(env, x, order, membership);
    PairPasses(clearing, fee, order.price);
    ChargeIsInsertable(env.ledgerHash, b2, PurchaseInput(env, x, order, membership), newTx, x.order, order);
    assert PairReady(b2, clearing, fee, order.currency);
  }

  lemma PlatformsDiffer(currency: string)
    ensures L.PlatformId(CLEARING, currency) != L.PlatformId(FEE, currency)
  {
    hide L.Lower;
    assert L.PlatformId(CLEARING, currency)[25] == 'd' && L.PlatformId(FEE, currency)[25] == 'f';
  }

  // ----- The credits beside it -----

  lemma ApprovalGrants(env: Env, s: Shop, x: DecideInput, ids: NewIds, now: int)
    requires Judged(s, x) && Approve(env, s, x, s.orders[x.order], ids, now).Ok?
    ensures var grant := GrantOf(x.order, s.orders[x.order], x.requestId, x.reviewer);
      C.Mutate(s.credits, grant).Ok?
        && Approve(env, s, x, s.orders[x.order], ids, now).shop.credits == C.Mutate(s.credits, grant).book
  {
    hide Entitle, PostPurchase, C.Mutate, Approve;
    ApproveActivates(env, s, x, ids, now);
  }

  lemma PaymentGrants(env: Env, s: Shop, x: PayInput, ids: PayIds, now: int)
    requires PayOrder(env, s, x, ids, now).Ok?
    ensures x.order in s.orders
    ensures var grant := GrantOf(x.order, s.orders[x.order], x.requestId, s.orders[x.order].user);
      C.Mutate(s.credits, grant).Ok? && PayOrder(env, s, x, ids, now).shop.credits == C.Mutate(s.credits, grant).book
  {
    hide EntitlePaid, PostPayment, C.Mutate, PayOrder;
    PaymentActivates(env, s, x, ids, now);
  }

  lemma GrantKeepsCredits(b: C.Book, id: Id, order: Order, requestId: string, actor: Id)
    requires CL.Inv(b)
    ensures var out := C.Mutate(b, GrantOf(id, order, requestId, actor)); out.Ok? ==> CL.Inv(out.book)
  {
    hide CL.Inv, C.Mutate;
    CL.GrantKeeps(b, C.GrantInput(order.user, order.grant, ORDER, id, CreditKey(id), requestId, Some(actor)));
  }

  lemma DecisionKeepsCredits(env: Env, s: Shop, x: DecideInput, ids: NewIds, now: int)
    requires CL.Inv(s.credits)
    ensures CL.Inv(Next(env, s, DecideStep(x, ids, now)).credits)
  {
    hide Next, Approve, CL.Inv, C.Mutate;
    NextDecide(env, s, x, ids, now);
    if DecideOrder(env, s, x, ids, now).Ok? {
      var order := s.orders[x.order];
      ClaimedWorks(s, DecideDescriptor(env, x, order), Judge(env, s, x, order, ids, now));
      if Judge(env, s, x, order, ids, now).Ok? && x.approve {
        assert Judged(s, x);
        ApprovalGrants(env, s, x, ids, now);
        GrantKeepsCredits(s.credits, x.order, order, x.requestId, x.reviewer);
      }
    }
  }

  lemma OthersKeepCredits(env: Env, s: Shop, step: Step)
    requires !step.DecideStep? && !step.PayStep? && !step.CreditStep?
    ensures Next(env, s, step).credits == s.credits
  {
    hide D.Next, L.Next, C.Next, EvidenceRow, EvidenceValid, EvidenceDescriptor, CreateDescriptor, SubmitDescriptor,
      DecideOrder, PayOrder, D.ConfigurationComplete, D.SuppliesCurrent, D.ConsentComplete, ActivateTrial,
      AcceptDescriptor, ClaimKey, CompleteKey;
  }

  lemma StepKeepsCredits(env: Env, s: Shop, step: Step)
    requires CL.Inv(s.credits)
    ensures CL.Inv(Next(env, s, step).credits)
  {
    hide Next, CL.Inv, PayOrder, C.Mutate;
    match step
    case DecideStep(x, ids, now) => DecisionKeepsCredits(env, s, x, ids, now);
    case PayStep(x, ids, now) =>
      NextPay(env, s, x, ids, now);
      if PayOrder(env, s, x, ids, now).Ok? {
        PaymentGrants(env, s, x, ids, now);
        GrantKeepsCredits(s.credits, x.order, s.orders[x.order], x.requestId, s.orders[x.order].user);
      }
    case CreditStep(c) =>
      CL.ExecKeepsInv(s.credits, c);
      CreditStepIs(env, s, c);
    case _ => OthersKeepCredits(env, s, step);
  }

  lemma CreditStepIs(env: Env, s: Shop, c: C.Step)
    ensures var next := Next(env, s, CreditStep(c)); next.credits == s.credits || next.credits == C.Next(s.credits, c)
  {
    hide C.Next, D.Next, L.Next, Exec, ForeignCredit;
  }

  /** The credit book stays sound over every run of orders beside it. */
  lemma {:induction false} RunKeepsCredits(env: Env, s: Shop, steps: seq<Step>)
    requires CL.Inv(s.credits)
    ensures CL.Inv(Run(env, s, steps).credits)
    decreases |steps|
  {
    hide Next, CL.Inv;
    if steps != [] {
      StepKeepsCredits(env, s, steps[0]);
      RunKeepsCredits(env, Next(env, s, steps[0]), steps[1..]);
    }
  }

  lemma {:induction false} GrantSourceIsFree(ledger: seq<C.Entry>, id: Id, m: C.Mutation)
    requires CreditKeys(ledger) && GrantsOf(ledger, id) == [] && m.sourceType == ORDER && m.sourceId == id
    ensures !C.SourceTaken(ledger, m)
  {
    if ledger != [] {
      var n := |ledger| - 1;
      GrantSourceIsFree(ledger[..n], id, m);
      forall i | 0 <= i < |ledger| ensures !C.SameSource(ledger[i].mutation, m) {
        if i < n {
          assert ledger[..n][i] == ledger[i];
        }
      }
    }
  }

  lemma UngrantedIsGranted(s: Shop, id: Id, order: Order, requestId: string, actor: Id)
    requires CL.Inv(s.credits) && Payable(s, id) && order.grant > 0
    ensures C.Mutate(s.credits, GrantOf(id, order, requestId, actor)).Ok?
  {
    UngrantedKeyIsFree(s.credits.ledger, id);
    GrantSourceIsFree(s.credits.ledger, id, GrantOf(id, order, requestId, actor));
    assert CL.LedgerInv(s.credits);
    hide CL.Inv, CL.LedgerInv, C.Mutate, C.SourceTaken, C.EntryByKey, GrantsOf, LedgerKeys, CreditKeys, ChargesOf,
      LL.Inv;
    CA.GrantAcceptedIff(s.credits,
      C.GrantInput(order.user, order.grant, ORDER, id, CreditKey(id), requestId, Some(actor)));
  }

  lemma {:induction false} NoEventYet(events: seq<Event>, id: Id)
    requires EventsOf(events, id) == []
    ensures !EventTaken(events, id)
  {
    if events != [] {
      NoEventYet(events[..|events| - 1], id);
      forall i | 0 <= i < |events| ensures events[i].order != id {
        if i < |events| - 1 {
          assert events[..|events| - 1][i] == events[i];
        }
      }
    }
  }

  lemma EventsNotTaken(s: Shop, id: Id)
    requires AllSound(s) && id in s.orders
    requires s.orders[id].status == PendingEvidence || s.orders[id].status == PendingReview
    ensures !EventTaken(s.events, id)
  {
    assert Sound(FactsOf(s, id));
    NoEventYet(s.events, id);
  }

  // ----- Exactly when -----

  /** New identifiers, and a purchase that moves and grants something. */
  predicate IsWorth(s: Shop, order: Order, newTx: Id) {
    order.price > 0 && order.grant > 0 && !L.HasTransaction(s.ledger.transactions, newTx)
  }

  predicate PlatformReady(books: L.Books, currency: string) {
    && IsReady(books, L.PlatformId(CLEARING, currency), L.Platform, CLEARING, currency)
    && IsReady(books, L.PlatformId(FEE, currency), L.Platform, FEE, currency)
  }

  /** At most one current row, and not a lifetime one under a finite order. */
  predicate MayRenew(env: Env, s: Shop, order: Order, newMembership: Id) {
    var current := CurrentOf(s.memberships, order.user);
    && |current| <= 1
    && (|current| == 1 ==> order.durationDays.None? || !TermOf(env.plans, s.memberships[current[0]]).lifetime)
    && (current == [] ==> forall i :: 0 <= i < |s.memberships| ==> s.memberships[i].id != newMembership)
  }

  lemma EntitledIff(env: Env, s: Shop, order: Order, newMembership: Id, now: int)
    ensures Entitle(env, s.memberships, order, newMembership, now).Entitled? <==> MayRenew(env, s, order, newMembership)
  {
    hide CurrentOf;
    assert forall k :: 0 <= k < |CurrentOf(s.memberships, order.user)| ==>
      CurrentOf(s.memberships, order.user)[k] < |s.memberships| by {
      CurrentInRange(s.memberships, order.user);
    }
  }

  lemma CurrentInRange(memberships: seq<Membership>, user: Id)
    ensures forall k :: 0 <= k < |CurrentOf(memberships, user)| ==> CurrentOf(memberships, user)[k] < |memberships|
  {
  }

  lemma ActivateGoes(s: Shop, id: Id, order: Order, e: Entitlement, grant: C.Mutation, now: int, reply: Reply)
    requires C.Mutate(s.credits, grant).Ok? && !EventTaken(s.events, id)
    ensures Activate(s, id, order, e, grant, now, reply).Ok?
  {
    hide C.Mutate;
  }

  /**
   * In a sound shop whose platform accounts are in order, and with new identifiers, an approval goes through exactly
   * if the customer's membership may be renewed: nothing of the posting, the grant or the event can stop it.
   */
  lemma ApprovalGoesThroughIff(env: Env, s: Shop, x: DecideInput, ids: NewIds, now: int)
    requires Inv(s) && CL.Inv(s.credits) && Judged(s, x) && IsWorth(s, s.orders[x.order], ids.transaction)
    requires PlatformReady(s.ledger, s.orders[x.order].currency)
    ensures Approve(env, s, x, s.orders[x.order], ids, now).Ok? <==>
      MayRenew(env, s, s.orders[x.order], ids.membership)
  {
    hide CL.Inv, AllSound, LedgerKeys, CreditKeys, LL.Inv, Entitle, PostPurchase, Activate, MayRenew, C.Mutate, Payable,
      EventTaken, L.TransactionByKey;
    var order := s.orders[x.order];
    EntitledIff(env, s, order, ids.membership, now);
    if Entitle(env, s.memberships, order, ids.membership, now).Entitled? {
      var e := Entitle(env, s.memberships, order, ids.membership, now).entitlement;
      UnpaidBefore(s, x.order);
      OrderKeyIsFree(s, x.order);
      ApprovalPosts(env, s.ledger, x, order, e.id, ids.transaction);
      UngrantedIsGranted(s, x.order, order, x.requestId, x.reviewer);
      EventsNotTaken(s, x.order);
      var paid := PostPurchase(env, s.ledger, x, order, e.id, ids.transaction);
      ActivateGoes(Prepared(env, s, x, e, ids.transaction), x.order,
                   order.(reviewedBy := Some(x.reviewer), transaction := Some(paid.transaction)), e,
                   GrantOf(x.order, order, x.requestId, x.reviewer), now,
                   OrderActivated(e.id, paid.transaction, x.evidence));
    }
  }

  lemma OrderKeyIsFree(s: Shop, id: Id)
    requires Payable(s, id)
    ensures LedgerKeys(s.ledger.transactions) && L.TransactionByKey(s.ledger.transactions, LedgerKey(id)).None?
  {
    hide LL.Inv, CreditKeys, LedgerKeys, GrantsOf;
    UnchargedKeyIsFree(s.ledger.transactions, s.ledger.rows, id);
  }

  lemma AccountsDiffer(user: Id, currency: string)
    ensures L.UserId(user, currency) != L.PlatformId(FEE, currency)
  {
    hide L.Lower;
    assert L.UserId(user, currency)[7] == 'u' && L.PlatformId(FEE, currency)[7] == 'p';
  }

  predicate CustomerReady(books: L.Books, user: Id, currency: string) {
    && IsReady(books, L.UserId(user, currency), L.User(user), L.USER_AVAILABLE, currency)
    && IsReady(books, L.PlatformId(FEE, currency), L.Platform, FEE, currency)
  }

  lemma WalletMoves(b: L.Books, key: L.WalletKey, price: int, tx: Id, newWallet: Id)
    requires LL.WalletsSound(b) && 0 < price <= LL.Holding(b, key).0
    ensures L.MoveWallet(b, key, (-price, 0), tx, newWallet).Ok?
  {
    assert key in b.wallets && LL.WalletSound(b.versions, b.wallets[key]);
  }

  lemma PaymentPosts(env: Env, books: L.Books, x: PayInput, order: Order, membership: Id, ids: PayIds)
    requires LL.WalletsSound(books) && LedgerKeys(books.transactions)
    requires L.TransactionByKey(books.transactions, LedgerKey(x.order)).None?
    requires 0 < order.price <= LL.Holding(books, L.WalletKey(order.user, order.currency)).0
    requires !L.HasTransaction(books.transactions, ids.transaction)
    requires CustomerReady(books, order.user, order.currency)
    ensures PostPayment(env, books, x, order, membership, ids).Purchase?
  {
    hide L.CheckPostings, L.Insertable, L.TransactionByKey, L.HasTransaction, LedgerKeys, Decimal.ToDecimal, L.RowsOf,
      L.Lower, L.MoveWallet, L.Deltas, LL.WalletsSound;
    var account, fee := L.UserId(order.user, order.currency), L.PlatformId(FEE, order.currency);
    AccountsDiffer(order.user, order.currency);
    EnsureReady(books, account, L.User(order.user), L.USER_AVAILABLE, order.currency);
    var b1 := L.EnsureUser(books, order.user, order.currency).value;
    EnsureReady(b1, fee, L.Platform, FEE, order.currency);
    var b2 := L.EnsurePlatform(b1, FEE, order.currency).value;
    var input := WalletInput(env, x, order, membership);
    PaymentIsCharge(env, x, order, membership);
    PairPasses(account, fee, order.price);
    ChargeIsInsertable(env.ledgerHash, b2, input, ids.transaction, x.order, order);
    assert PairReady(b2, account, fee, order.currency);
    PaymentDeltas(env, x, order, membership);
    var written := b2.(transactions := b2.transactions
                       + [L.TransactionOf(env.ledgerHash, input, ids.transaction, true)],
                       rows := b2.rows + L.RowsOf(ids.transaction, input.currency, input.postings));
    SameWallets(books, written);
    WalletMoves(written, L.WalletKey(order.user, order.currency), order.price, ids.transaction, ids.wallet);
  }

  lemma SameWallets(books: L.Books, b: L.Books)
    requires LL.WalletsSound(books) && b.wallets == books.wallets && b.versions == books.versions
    ensures LL.WalletsSound(b)
  {
  }

  /** At most one active or waiting row, and not one that names the lifetime code under a finite order. */
  predicate MayPay(s: Shop, order: Order, newMembership: Id) {
    var held := HeldBy(s.memberships, order.user);
    && |held| <= 1
    && (|held| == 1 ==> order.durationDays.None? || s.memberships[held[0]].plan != "lifetime_v1")
    && (held == [] ==> forall i :: 0 <= i < |s.memberships| ==> s.memberships[i].id != newMembership)
  }

  /** The rows alone do not stop the payment. */
  lemma RowsAllowPayment(env: Env, s: Shop, x: PayInput, ids: PayIds, now: int)
    requires x.order in s.orders && s.orders[x.order].user == x.user && s.orders[x.order].status == PendingEvidence
    requires var order := s.orders[x.order];
      PostPayment(env, s.ledger, x, order, EntitlePaid(s.memberships, order, ids.membership, now).id, ids).Purchase?
    requires var order := s.orders[x.order];
      && C.Mutate(s.credits, GrantOf(x.order, order, x.requestId, order.user)).Ok? && !EventTaken(s.events, x.order)
    ensures PayOrder(env, s, x, ids, now).Ok? <==> MayPay(s, s.orders[x.order], ids.membership)
  {
    hide PostPayment, C.Mutate, EventTaken, HeldBy;
    PaymentEntitling(s.memberships, s.orders[x.order], ids.membership, now);
  }

  lemma PaidOnlyIf(env: Env, s: Shop, x: PayInput, ids: PayIds, now: int)
    requires PayOrder(env, s, x, ids, now).Ok?
    ensures x.order in s.orders && MayPay(s, s.orders[x.order], ids.membership)
  {
    hide PostPayment, Activate, HeldBy;
    if x.order in s.orders {
      PaymentEntitling(s.memberships, s.orders[x.order], ids.membership, now);
    }
  }

  /**
   * In a sound shop whose accounts are in order, and with new identifiers, the owner's payment of a waiting order goes
   * through exactly if the rows allow it and the wallet covers the price.
   */
  lemma PaymentGoesThroughIff(env: Env, s: Shop, x: PayInput, ids: PayIds, now: int)
    requires Inv(s) && CL.Inv(s.credits) && x.order in s.orders && IsWorth(s, s.orders[x.order], ids.transaction)
    requires s.orders[x.order].user == x.user && s.orders[x.order].status == PendingEvidence
    requires CustomerReady(s.ledger, x.user, s.orders[x.order].currency)
    ensures var order := s.orders[x.order];
      PayOrder(env, s, x, ids, now).Ok? <==>
        && MayPay(s, order, ids.membership)
        && order.price <= LL.Holding(s.ledger, L.WalletKey(x.user, order.currency)).0
  {
    hide CL.Inv, AllSound, LedgerKeys, CreditKeys, EntitlePaid, PostPayment, Activate, MayPay, C.Mutate, Payable,
      EventTaken, L.TransactionByKey, LL.Holding, PayOrder, CustomerReady, LL.WalletsSound, LL.TransactionsSound;
    var order := s.orders[x.order];
    PaymentIsCovered(env, s, x, ids, now);
    if PayOrder(env, s, x, ids, now).Ok? {
      PaidOnlyIf(env, s, x, ids, now);
    }
    if order.price <= LL.Holding(s.ledger, L.WalletKey(x.user, order.currency)).0 {
      UnpaidBefore(s, x.order);
      OrderKeyIsFree(s, x.order);
      PaymentPosts(env, s.ledger, x, order, EntitlePaid(s.memberships, order, ids.membership, now).id, ids);
      UngrantedIsGranted(s, x.order, order, x.requestId, order.user);
      EventsNotTaken(s, x.order);
      RowsAllowPayment(env, s, x, ids, now);
    }
  }

  /** Others' orders, and orders that are no longer waiting, cannot be paid. */
  lemma OnlyOwnWaitingOrders(env: Env, s: Shop, x: PayInput, ids: PayIds, now: int)
    ensures x.order in s.orders && s.orders[x.order].user != x.user ==>
      PayOrder(env, s, x, ids, now) == Err(OrderNotFound)
    ensures x.order in s.orders && s.orders[x.order].user == x.user && s.orders[x.order].status != PendingEvidence ==>
      PayOrder(env, s, x, ids, now) == Err(NotPayable)
  {
    hide ConcludePayment;
  }
}
