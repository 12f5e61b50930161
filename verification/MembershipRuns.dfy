/** Orders over whole runs: how they move, what retries do, and how approvals extend memberships. */
module MembershipRuns {
  import opened Common
  import opened Idempotency
  import opened Renewal
  import opened Membership
  import opened MembershipLaws
  import C = Credits
  import D = Disclosure
  import L = Ledger
  import LL = LedgerLaws
  import Texts

  // ----- From the beginning -----

  function Opening(board: D.Board, memberships: seq<Membership>, accounts: map<Id, L.Account>): Shop {
    Shop(board, map[], map[], map[], [], memberships, [], L.EMPTY_BOOKS.(accounts := accounts), C.EMPTY_BOOK, map[])
  }

  function Later(env: Env, board: D.Board, memberships: seq<Membership>, accounts: map<Id, L.Account>,
                 steps: seq<Step>): Shop {
    Run(env, Opening(board, memberships, accounts), steps)
  }

  lemma OpeningIsSound(board: D.Board, memberships: seq<Membership>, accounts: map<Id, L.Account>)
    ensures Inv(Opening(board, memberships, accounts))
  {
  }

  lemma LaterIsSound(env: Env, board: D.Board, memberships: seq<Membership>, accounts: map<Id, L.Account>,
                     steps: seq<Step>)
    ensures Inv(Later(env, board, memberships, accounts, steps))
  {
    hide Inv, Next;
    OpeningIsSound(board, memberships, accounts);
    RunKeepsInv(env, Opening(board, memberships, accounts), steps);
  }

  /**
   * Whatever happens from an empty order table on, in whatever interleaving of the two routes: an activated order is
   * paid for, granted and entitled exactly once. Either it was approved, on evidence of its price, by somebody who
   * neither submitted it nor recorded that evidence, or it was paid from the wallet, and then never decided.
   */
  lemma ActivatedIsSettledOnce(env: Env, board: D.Board, memberships: seq<Membership>, accounts: map<Id, L.Account>,
                               steps: seq<Step>, id: Id)
    requires var s := Later(env, board, memberships, accounts, steps);
      id in s.orders && s.orders[id].status == Activated
    ensures var s := Later(env, board, memberships, accounts, steps);
      && PaidOnce(s.orders[id], FactsOf(s, id))
      && if s.orders[id].reviewedBy.Some? then Settled(s.orders[id], FactsOf(s, id))
         else PaidFromWallet(s.orders[id], FactsOf(s, id))
  {
    hide Next, LL.Inv, LedgerKeys, CreditKeys, AllSound, PaidOnce, Settled, PaidFromWallet;
    LaterIsSound(env, board, memberships, accounts, steps);
    PaidOneWay(Later(env, board, memberships, accounts, steps), id);
  }

  lemma PaidOneWay(s: Shop, id: Id)
    requires AllSound(s) && id in s.orders && s.orders[id].status == Activated
    ensures PaidOnce(s.orders[id], FactsOf(s, id))
    ensures if s.orders[id].reviewedBy.Some? then Settled(s.orders[id], FactsOf(s, id))
      else PaidFromWallet(s.orders[id], FactsOf(s, id))
  {
    assert Sound(FactsOf(s, id));
  }

  lemma UnpaidUnlessActivated(s: Shop, id: Id)
    requires AllSound(s) && (id in s.orders ==> s.orders[id].status != Activated)
    ensures var f := FactsOf(s, id); Unpaid(f) && forall e :: e in f.proofs ==> f.proofs[e].status != Accepted
  {
    assert Sound(FactsOf(s, id));
  }

  /** And an order that is not activated has cost and granted nothing. */
  lemma OthersArePaidNothing(env: Env, board: D.Board, memberships: seq<Membership>, accounts: map<Id, L.Account>,
                             steps: seq<Step>, id: Id)
    requires var s := Later(env, board, memberships, accounts, steps);
      id in s.orders ==> s.orders[id].status != Activated
    ensures var f := FactsOf(Later(env, board, memberships, accounts, steps), id);
      Unpaid(f) && forall e :: e in f.proofs ==> f.proofs[e].status != Accepted
  {
    hide Next, LL.Inv, LedgerKeys, CreditKeys, AllSound, Unpaid;
    LaterIsSound(env, board, memberships, accounts, steps);
    UnpaidUnlessActivated(Later(env, board, memberships, accounts, steps), id);
  }

  // ----- How an order moves -----

  /** What was ordered is fixed; the status only goes forward, and a decided order is final. */
  predicate Moves(a: Order, b: Order) {
    && a.user == b.user && a.plan == b.plan && a.price == b.price && a.currency == b.currency
    && a.durationDays == b.durationDays && a.grant == b.grant
    && match a.status {
      case PendingEvidence => b == a || b.status != PendingEvidence
      case PendingReview => b == a || b.status == Activated || b.status == Rejected
      case _ => b == a
    }
  }

  lemma ApproveMoves(env: Env, s: Shop, x: DecideInput, order: Order, ids: NewIds, now: int)
    requires x.evidence in s.evidence && Approve(env, s, x, order, ids, now).Ok?
    ensures var after := Approve(env, s, x, order, ids, now).shop;
      x.order in after.orders && after.orders == s.orders[x.order := after.orders[x.order]]
      && after.orders[x.order].status == Activated && after.records == s.records
      && (order.status == PendingReview ==> Moves(order, after.orders[x.order]))
  {
  }

  /** A judgement changes its own order only, and only from review to a final status. */
  lemma JudgeMoves(env: Env, s: Shop, x: DecideInput, ids: NewIds, now: int)
    requires x.order in s.orders && Judge(env, s, x, s.orders[x.order], ids, now).Ok?
    ensures var after := Judge(env, s, x, s.orders[x.order], ids, now).shop;
      && s.orders[x.order].status == PendingReview && x.order in after.orders
      && after.orders == s.orders[x.order := after.orders[x.order]]
      && Moves(s.orders[x.order], after.orders[x.order]) && after.records == s.records
  {
    if x.approve {
      ApproveMoves(env, s, x, s.orders[x.order], ids, now);
    }
  }

  /** A payment changes its own order only, and only from waiting for evidence to activated. */
  lemma PayMoves(env: Env, s: Shop, x: PayInput, ids: PayIds, now: int)
    requires PayOrder(env, s, x, ids, now).Ok?
    ensures var after := PayOrder(env, s, x, ids, now).shop;
      && x.order in s.orders && s.orders[x.order].status == PendingEvidence && x.order in after.orders
      && after.orders == s.orders[x.order := after.orders[x.order]] && after.orders[x.order].status == Activated
      && Moves(s.orders[x.order], after.orders[x.order]) && after.records == s.records
  {
    hide EntitlePaid, PostPayment;
    PaymentActivates(env, s, x, ids, now);
  }

  lemma PayStepMoves(env: Env, s: Shop, x: PayInput, ids: PayIds, now: int)
    ensures var after := Next(env, s, PayStep(x, ids, now));
      && after.records == s.records && after.orders.Keys == s.orders.Keys
      && forall id :: id in s.orders ==>
        && Moves(s.orders[id], after.orders[id])
        && (after.orders[id] == s.orders[id] || after.orders[id].status == Activated)
  {
    hide Next, PayOrder;
    NextPay(env, s, x, ids, now);
    if PayOrder(env, s, x, ids, now).Ok? {
      PayMoves(env, s, x, ids, now);
    }
  }

  /** A claim is answered from the record, or does the work and completes the record. */
  lemma ClaimedWorks(s: Shop, d: Descriptor, work: Outcome)
    requires Claimed(s, d, work).Ok?
    ensures Claimed(s, d, work).shop == s
      || (work.Ok? && Claimed(s, d, work).shop == work.shop.(records := Claimed(s, d, work).shop.records))
  {
  }

  lemma DecideMoves(env: Env, s: Shop, x: DecideInput, ids: NewIds, now: int, id: Id)
    requires id in s.orders
    ensures var after := Next(env, s, DecideStep(x, ids, now));
      && id in after.orders && Moves(s.orders[id], after.orders[id]) && after.orders.Keys == s.orders.Keys
      && (s.orders[id].status == PendingEvidence ==> after.orders[id] == s.orders[id])
  {
    hide Next;
    NextDecide(env, s, x, ids, now);
    if DecideOrder(env, s, x, ids, now).Ok? {
      var work := Judge(env, s, x, s.orders[x.order], ids, now);
      ClaimedWorks(s, DecideDescriptor(env, x, s.orders[x.order]), work);
      if work.Ok? {
        JudgeMoves(env, s, x, ids, now);
      }
    }
  }

  lemma SubmitMoves(env: Env, s: Shop, x: SubmitInput, id: Id)
    requires id in s.orders
    ensures var after := Next(env, s, SubmitStep(x));
      && id in after.orders && Moves(s.orders[id], after.orders[id])
      && (after.orders[id] == s.orders[id] || after.orders[id].status == PendingReview)
  {
    hide Next;
    NextSubmit(env, s, x);
  }

  lemma CreateMoves(env: Env, s: Shop, x: CreateInput, newId: Id, now: int, id: Id)
    requires id in s.orders
    ensures var after := Next(env, s, CreateStep(x, newId, now)); id in after.orders && after.orders[id] == s.orders[id]
  {
    hide Next;
    NextCreate(env, s, x, newId, now);
    var work := NewOrder(env, s, x, newId, now);
    assert work.Ok? ==> id in work.shop.orders && work.shop.orders[id] == s.orders[id];
  }

  lemma EvidenceMoves(env: Env, s: Shop, x: EvidenceInput, newId: Id, now: int)
    ensures Next(env, s, EvidenceStep(x, newId, now)).orders == s.orders
  {
    hide Next;
    NextEvidence(env, s, x, newId, now);
    if EvidenceValid(x, now) && x.order in s.orders {
      var work := KeepEvidence(s, EvidenceRow(env, x), s.orders[x.order], newId);
      assert work.Ok? ==> work.shop.orders == s.orders;
    }
  }

  lemma StepMoves(env: Env, s: Shop, step: Step, id: Id)
    requires id in s.orders
    ensures id in Next(env, s, step).orders && Moves(s.orders[id], Next(env, s, step).orders[id])
    ensures s.orders[id].status == PendingEvidence ==>
      || Next(env, s, step).orders[id] == s.orders[id] || Next(env, s, step).orders[id].status == PendingReview
      || (step.PayStep? && Next(env, s, step).orders[id].status == Activated)
  {
    hide Exec, L.Next, C.Next, D.Next;
    match step
    case CreateStep(x, newId, now) => CreateMoves(env, s, x, newId, now, id);
    case EvidenceStep(x, newId, now) => EvidenceMoves(env, s, x, newId, now);
    case SubmitStep(x) => SubmitMoves(env, s, x, id);
    case DecideStep(x, ids, now) => DecideMoves(env, s, x, ids, now, id);
    case PayStep(x, ids, now) => PayStepMoves(env, s, x, ids, now);
    case AcceptStep(x, now) => AcceptMovesNothing(env, s, x, now);
    case _ =>
  }

  lemma AcceptMovesNothing(env: Env, s: Shop, x: AcceptInput, now: int)
    ensures var after := Next(env, s, AcceptStep(x, now));
      after.orders == s.orders
  {
    hide Next;
    NextAccept(env, s, x, now);
    if D.ConsentComplete(env.digests, s.board, x.user, now) {
    } else {
      var work := RecordConsent(env, s, x, now);
      assert work.Ok? ==> work.shop.orders == s.orders;
    }
  }

  lemma {:induction false} RunMoves(env: Env, s: Shop, steps: seq<Step>, id: Id)
    requires id in s.orders
    ensures id in Run(env, s, steps).orders && Moves(s.orders[id], Run(env, s, steps).orders[id])
    decreases |steps|
  {
    hide Next;
    if steps != [] {
      StepMoves(env, s, steps[0], id);
      RunMoves(env, Next(env, s, steps[0]), steps[1..], id);
    }
  }

  // ----- Retries -----

  /** A claim that was honoured is answered the same ever after, whatever the work would do by then. */
  lemma ClaimedAnswers(s: Shop, d: Descriptor, work: Outcome, later: Shop, e: Descriptor, other: Outcome)
    requires Claimed(s, d, work).Ok? && Slot(e) == Slot(d)
    requires work.Ok? ==> work.shop.records == s.records
    requires Keeps(Claimed(s, d, work).shop.records, later.records)
    ensures Claimed(later, e, other) == if e == d then Ok(later, Claimed(s, d, work).reply) else Err(KeyCollision)
  {
    if ClaimKey(s.records, d).Proceed? {
      CompletedAnswers(s.records, d, work.reply, later.records, e);
    } else {
      assert Slot(d) in s.records && s.records[Slot(d)].response.Some?;
    }
  }

  lemma ClaimedKeepsRecords(s: Shop, d: Descriptor, work: Outcome)
    requires Claimed(s, d, work).Ok? && (work.Ok? ==> work.shop.records == s.records)
    ensures Keeps(s.records, Claimed(s, d, work).shop.records)
  {
    if ClaimKey(s.records, d).Proceed? {
      CompletingKeeps(s.records, d, work.reply);
    }
  }

  lemma CreateKeepsRecords(env: Env, s: Shop, x: CreateInput, newId: Id, now: int)
    ensures Keeps(s.records, Next(env, s, CreateStep(x, newId, now)).records)
  {
    hide Next;
    NextCreate(env, s, x, newId, now);
    if CreateOrder(env, s, x, newId, now).Ok? {
      ClaimedKeepsRecords(s, CreateDescriptor(env, x), NewOrder(env, s, x, newId, now));
    }
  }

  lemma EvidenceKeepsRecords(env: Env, s: Shop, x: EvidenceInput, newId: Id, now: int)
    ensures Keeps(s.records, Next(env, s, EvidenceStep(x, newId, now)).records)
  {
    hide Next;
    NextEvidence(env, s, x, newId, now);
    if RecordEvidence(env, s, x, newId, now).Ok? {
      var order := s.orders[x.order];
      ClaimedKeepsRecords(s, EvidenceDescriptor(env, x, order.user),
                          KeepEvidence(s, EvidenceRow(env, x), order, newId));
    }
  }

  lemma SubmitKeepsRecords(env: Env, s: Shop, x: SubmitInput)
    ensures Keeps(s.records, Next(env, s, SubmitStep(x)).records)
  {
    hide Next;
    NextSubmit(env, s, x);
    if SubmitOrder(env, s, x).Ok? {
      var order := s.orders[x.order];
      ClaimedKeepsRecords(s, SubmitDescriptor(env, x, order.user), MarkSubmitted(s, x, order));
    }
  }

  lemma DecideKeepsRecords(env: Env, s: Shop, x: DecideInput, ids: NewIds, now: int)
    ensures Keeps(s.records, Next(env, s, DecideStep(x, ids, now)).records)
  {
    hide Next;
    NextDecide(env, s, x, ids, now);
    if DecideOrder(env, s, x, ids, now).Ok? {
      var order := s.orders[x.order];
      var work := Judge(env, s, x, order, ids, now);
      if work.Ok? {
        JudgeMoves(env, s, x, ids, now);
      }
      ClaimedKeepsRecords(s, DecideDescriptor(env, x, order), work);
    }
  }

  lemma NextKeepsRecords(env: Env, s: Shop, step: Step)
    ensures Keeps(s.records, Next(env, s, step).records)
  {
    hide Exec, L.Next, C.Next, D.Next;
    match step
    case CreateStep(x, newId, now) => CreateKeepsRecords(env, s, x, newId, now);
    case EvidenceStep(x, newId, now) => EvidenceKeepsRecords(env, s, x, newId, now);
    case SubmitStep(x) => SubmitKeepsRecords(env, s, x);
    case DecideStep(x, ids, now) => DecideKeepsRecords(env, s, x, ids, now);
    case PayStep(x, ids, now) => PayStepMoves(env, s, x, ids, now);
    case AcceptStep(x, now) => AcceptKeepsRecords(env, s, x, now);
    case _ =>
  }

  lemma AcceptKeepsRecords(env: Env, s: Shop, x: AcceptInput, now: int)
    ensures Keeps(s.records, Next(env, s, AcceptStep(x, now)).records)
  {
    hide Next;
    NextAccept(env, s, x, now);
    if AcceptDocuments(env, s, x, now).Ok? && !D.ConsentComplete(env.digests, s.board, x.user, now) {
      ClaimedKeepsRecords(s, AcceptDescriptor(env, x), RecordConsent(env, s, x, now));
    }
  }

  lemma {:induction false} RunKeepsRecords(env: Env, s: Shop, steps: seq<Step>)
    ensures Keeps(s.records, Run(env, s, steps).records)
    decreases |steps|
  {
    hide Next;
    if steps != [] {
      NextKeepsRecords(env, s, steps[0]);
      RunKeepsRecords(env, Next(env, s, steps[0]), steps[1..]);
    }
  }

  /** The same plan version for the same customer, with a payload of the same hash. */
  predicate SameOrder(env: Env, x: CreateInput, y: CreateInput) {
    && y.user == x.user && y.plan == x.plan
    && env.payloadHash(CreatePayload(y.plan, Texts.SortedSet(y.documents))) ==
      env.payloadHash(CreatePayload(x.plan, Texts.SortedSet(x.documents)))
  }

  /** A repeated order request gives the first order back, however much later, and creates nothing. */
  lemma CreateAgain(env: Env, s: Shop, x: CreateInput, newId: Id, now: int, steps: seq<Step>, y: CreateInput,
                    otherId: Id, at: int)
    requires CreateOrder(env, s, x, newId, now).Ok? && y.key == x.key
    ensures var first := CreateOrder(env, s, x, newId, now);
      var later := Run(env, first.shop, steps);
      CreateOrder(env, later, y, otherId, at) ==
        if SameOrder(env, x, y) then Ok(later, first.reply) else Err(KeyCollision)
  {
    hide Next, D.ConfigurationComplete, D.SuppliesCurrent, D.RecordAcceptances;
    var first := CreateOrder(env, s, x, newId, now);
    RunKeepsRecords(env, first.shop, steps);
    ClaimedAnswers(s, CreateDescriptor(env, x), NewOrder(env, s, x, newId, now), Run(env, first.shop, steps),
                   CreateDescriptor(env, y), NewOrder(env, Run(env, first.shop, steps), y, otherId, at));
  }

  /** A repeated submission is answered and changes nothing; a key used for another order is refused. */
  lemma SubmitAgain(env: Env, s: Shop, x: SubmitInput, steps: seq<Step>, y: SubmitInput)
    requires SubmitOrder(env, s, x).Ok? && y.key == x.key
    requires y.order in Run(env, SubmitOrder(env, s, x).shop, steps).orders
    ensures var first := SubmitOrder(env, s, x);
      var later := Run(env, first.shop, steps);
      SubmitOrder(env, later, y) == if y == x then Ok(later, first.reply) else Err(KeyCollision)
  {
    hide Next;
    var first := SubmitOrder(env, s, x);
    var later := Run(env, first.shop, steps);
    var order := s.orders[x.order];
    StepMoves(env, s, SubmitStep(x), x.order);
    RunMoves(env, first.shop, steps, x.order);
    RunKeepsRecords(env, first.shop, steps);
    ClaimedAnswers(s, SubmitDescriptor(env, x, order.user), MarkSubmitted(s, x, order), later,
                   SubmitDescriptor(env, y, later.orders[y.order].user),
                   MarkSubmitted(later, y, later.orders[y.order]));
  }

  /** The same verdict on the same order by the same person, with a payload of the same hash. */
  predicate SameDecision(env: Env, x: DecideInput, y: DecideInput) {
    && y.order == x.order && y.reviewer == x.reviewer && y.approve == x.approve
    && env.payloadHash(DecisionPayload(y.approve, y.note, y.evidence)) ==
      env.payloadHash(DecisionPayload(x.approve, x.note, x.evidence))
  }

  /** What a decision under a used key is answered in any shop that has kept the records and the order's terms. */
  lemma DecideAnswered(env: Env, s: Shop, x: DecideInput, ids: NewIds, now: int, later: Shop, y: DecideInput,
                       others: NewIds, at: int)
    requires DecideOrder(env, s, x, ids, now).Ok? && y.key == x.key && y.order in later.orders
    requires Keeps(DecideOrder(env, s, x, ids, now).shop.records, later.records)
    requires x.order in later.orders && later.orders[x.order].user == s.orders[x.order].user
      && later.orders[x.order].currency == s.orders[x.order].currency
    ensures DecideOrder(env, later, y, others, at) ==
      if SameDecision(env, x, y) then Ok(later, DecideOrder(env, s, x, ids, now).reply) else Err(KeyCollision)
  {
    var work := Judge(env, s, x, s.orders[x.order], ids, now);
    if work.Ok? {
      JudgeMoves(env, s, x, ids, now);
    }
    ClaimedAnswers(s, DecideDescriptor(env, x, s.orders[x.order]), work, later,
                   DecideDescriptor(env, y, later.orders[y.order]),
                   Judge(env, later, y, later.orders[y.order], others, at));
  }

  /**
   * A repeated decision returns the first outcome: nothing is paid, granted or extended again. Any other decision
   * under its key is refused.
   */
  lemma DecideAgain(env: Env, s: Shop, x: DecideInput, ids: NewIds, now: int, steps: seq<Step>, y: DecideInput,
                    others: NewIds, at: int)
    requires DecideOrder(env, s, x, ids, now).Ok? && y.key == x.key
    requires y.order in Run(env, DecideOrder(env, s, x, ids, now).shop, steps).orders
    ensures var first := DecideOrder(env, s, x, ids, now);
      var later := Run(env, first.shop, steps);
      DecideOrder(env, later, y, others, at) ==
        if SameDecision(env, x, y) then Ok(later, first.reply) else Err(KeyCollision)
  {
    hide Next, Judge, DecideDescriptor;
    NextDecide(env, s, x, ids, now);
    var first := DecideOrder(env, s, x, ids, now);
    StepMoves(env, s, DecideStep(x, ids, now), x.order);
    RunMoves(env, first.shop, steps, x.order);
    RunKeepsRecords(env, first.shop, steps);
    DecideAnswered(env, s, x, ids, now, Run(env, first.shop, steps), y, others, at);
  }

  /** The same evidence for the same order from the same person, with a payload of the same hash. */
  predicate SameEvidence(env: Env, x: EvidenceInput, y: EvidenceInput)
    requires x.occurredAt.Some? && y.occurredAt.Some?
  {
    && y.order == x.order && y.actor == x.actor && y.currency == x.currency
    && env.fingerprint(y.reference) == env.fingerprint(x.reference)
    && var f, g := env.fingerprint(x.reference), env.fingerprint(y.reference);
       env.payloadHash(EvidencePayload(y.kind, y.provider, g, y.amount, y.currency, y.occurredAt.value, NoteOf(y))) ==
         env.payloadHash(EvidencePayload(x.kind, x.provider, f, x.amount, x.currency, x.occurredAt.value, NoteOf(x)))
  }

  lemma EvidenceAnswered(env: Env, s: Shop, x: EvidenceInput, newId: Id, now: int, later: Shop, y: EvidenceInput,
                         otherId: Id, at: int)
    requires RecordEvidence(env, s, x, newId, now).Ok? && y.key == x.key && EvidenceValid(y, at)
    requires y.order in later.orders && Keeps(RecordEvidence(env, s, x, newId, now).shop.records, later.records)
    requires x.order in s.orders && x.order in later.orders && later.orders[x.order].user == s.orders[x.order].user
    ensures RecordEvidence(env, later, y, otherId, at) ==
      if SameEvidence(env, x, y) then Ok(later, RecordEvidence(env, s, x, newId, now).reply) else Err(KeyCollision)
  {
    var order, row := s.orders[x.order], EvidenceRow(env, x);
    ClaimedAnswers(s, EvidenceDescriptor(env, x, order.user), KeepEvidence(s, row, order, newId), later,
                   EvidenceDescriptor(env, y, later.orders[y.order].user),
                   KeepEvidence(later, EvidenceRow(env, y), later.orders[y.order], otherId));
  }

  lemma EvidenceKeepsOrder(env: Env, s: Shop, x: EvidenceInput, newId: Id, now: int)
    requires RecordEvidence(env, s, x, newId, now).Ok?
    ensures x.order in s.orders && RecordEvidence(env, s, x, newId, now).shop.orders == s.orders
  {
  }

  /** Valid evidence sent under a used key is answered with the row it left, or refused if it is other evidence. */
  lemma EvidenceAgain(env: Env, s: Shop, x: EvidenceInput, newId: Id, now: int, steps: seq<Step>, y: EvidenceInput,
                      otherId: Id, at: int)
    requires RecordEvidence(env, s, x, newId, now).Ok? && y.key == x.key && EvidenceValid(y, at)
    requires y.order in Run(env, RecordEvidence(env, s, x, newId, now).shop, steps).orders
    ensures var first := RecordEvidence(env, s, x, newId, now);
      var later := Run(env, first.shop, steps);
      RecordEvidence(env, later, y, otherId, at) ==
        if SameEvidence(env, x, y) then Ok(later, first.reply) else Err(KeyCollision)
  {
    hide Next, RecordEvidence, SameEvidence;
    var first := RecordEvidence(env, s, x, newId, now);
    var later := Run(env, first.shop, steps);
    EvidenceKeepsOrder(env, s, x, newId, now);
    RunMoves(env, first.shop, steps, x.order);
    RunKeepsRecords(env, first.shop, steps);
    EvidenceAnswered(env, s, x, newId, now, later, y, otherId, at);
  }

  // ----- Approvals as renewals -----

  /** The table's own check: a plan has no duration exactly when it is the lifetime plan. */
  predicate PlansSound(plans: map<Id, Plan>) {
    forall p :: p in plans ==>
      && (plans[p].durationDays.None? <==> plans[p].code == LIFETIME)
      && (plans[p].durationDays.Some? ==> plans[p].durationDays.value > 0)
  }

  /** The order has the price, currency, duration and credits of its plan version. */
  predicate MatchesPlan(plans: map<Id, Plan>, o: Order) {
    && o.plan in plans
    && o.price == plans[o.plan].price && o.currency == plans[o.plan].currency
    && o.durationDays == plans[o.plan].durationDays && o.grant == plans[o.plan].grant
  }

  predicate OrdersMatchPlans(env: Env, s: Shop) {
    forall o :: o in s.orders ==> MatchesPlan(env.plans, s.orders[o])
  }

  lemma NextMatchesPlans(env: Env, s: Shop, step: Step)
    requires OrdersMatchPlans(env, s)
    ensures OrdersMatchPlans(env, Next(env, s, step))
  {
    hide Next;
    var next := Next(env, s, step);
    forall o | o in next.orders ensures MatchesPlan(env.plans, next.orders[o]) {
      if o in s.orders {
        StepMoves(env, s, step, o);
      } else {
        NewOrdersOnly(env, s, step, o);
      }
    }
  }

  /** Orders keep the price, currency, duration and credits of the plan version they were made for. */
  lemma {:induction false} RunMatchesPlans(env: Env, s: Shop, steps: seq<Step>)
    requires OrdersMatchPlans(env, s)
    ensures OrdersMatchPlans(env, Run(env, s, steps))
    decreases |steps|
  {
    hide Next, OrdersMatchPlans;
    if steps != [] {
      NextMatchesPlans(env, s, steps[0]);
      RunMatchesPlans(env, Next(env, s, steps[0]), steps[1..]);
    }
  }

  /**
   * So from an empty order table on, an activated order has cost exactly the price of its plan version, once, in its
   * currency, and has granted its customer exactly the credits of the plan version.
   */
  lemma ActivatedCostsItsPlan(env: Env, board: D.Board, memberships: seq<Membership>, accounts: map<Id, L.Account>,
                              steps: seq<Step>, id: Id)
    requires var s := Later(env, board, memberships, accounts, steps);
      id in s.orders && s.orders[id].status == Activated
    ensures var s := Later(env, board, memberships, accounts, steps);
      var o, f := s.orders[id], FactsOf(s, id);
      && o.plan in env.plans
      && var p := env.plans[o.plan];
         && |f.charges| == 1 && f.charges[0].kind == L.MembershipPurchase && f.charges[0].currency == p.currency
         && f.charges[0].debit == p.price && f.charges[0].credit == p.price
         && |f.grants| == 1 && f.grants[0].user == o.user && f.grants[0].delta == C.Delta(p.grant, 0)
  {
    hide Next, FactsOf, Settled, PaidFromWallet;
    ActivatedIsSettledOnce(env, board, memberships, accounts, steps, id);
    RunMatchesPlans(env, Opening(board, memberships, accounts), steps);
  }

  /**
   * An order that is accepted under an unused key is for the customer who asked, of the plan version they asked for,
   * which is on sale; they have accepted the documents in force; and nothing else has happened.
   */
  lemma CreatedForAsker(env: Env, s: Shop, x: CreateInput, newId: Id, now: int)
    requires CreateOrder(env, s, x, newId, now).Ok? && (OrderCreate, x.key) !in s.records
    ensures var after := CreateOrder(env, s, x, newId, now).shop;
      && newId !in s.orders && newId in after.orders && after.orders == s.orders[newId := after.orders[newId]]
      && after.orders[newId].user == x.user && after.orders[newId].plan == x.plan
      && MatchesPlan(env.plans, after.orders[newId]) && after.orders[newId].status == PendingEvidence
      && env.plans[x.plan].active && env.plans[x.plan].effectiveAt <= now
      && D.ConsentComplete(env.digests, after.board, x.user, now)
      && after == s.(board := after.board, orders := after.orders, records := after.records)
      && CreateOrder(env, s, x, newId, now).reply == OrderCreated(newId)
  {
    hide D.SuppliesCurrent;
    var rows := D.CurrentDocuments(s.board.documents, now);
    forall i | 0 <= i < |rows| ensures rows[i].id in D.CurrentIds(s.board, now) {
    }
  }

  lemma NewOrdersOnly(env: Env, s: Shop, step: Step, o: Id)
    requires o !in s.orders && o in Next(env, s, step).orders
    ensures var order := Next(env, s, step).orders[o];
      MatchesPlan(env.plans, order) && order.status == PendingEvidence
  {
    hide RecordEvidence, SubmitOrder, DecideOrder, PayOrder, AcceptDocuments, L.Next, C.Next, D.Next;
    match step
    case CreateStep(x, newId, now) =>
    case EvidenceStep(x, newId, now) => EvidenceMoves(env, s, x, newId, now);
    case SubmitStep(x) => SubmitKeepsOrderIds(env, s, x);
    case DecideStep(x, ids, now) => DecideKeepsOrderIds(env, s, x, ids, now);
    case PayStep(x, ids, now) => PayStepMoves(env, s, x, ids, now);
    case AcceptStep(x, now) => AcceptMovesNothing(env, s, x, now);
    case _ =>
  }

  lemma SubmitKeepsOrderIds(env: Env, s: Shop, x: SubmitInput)
    ensures Next(env, s, SubmitStep(x)).orders.Keys == s.orders.Keys
  {
    hide Next;
    NextSubmit(env, s, x);
  }

  lemma DecideKeepsOrderIds(env: Env, s: Shop, x: DecideInput, ids: NewIds, now: int)
    ensures Next(env, s, DecideStep(x, ids, now)).orders.Keys == s.orders.Keys
  {
    hide Next;
    NextDecide(env, s, x, ids, now);
    if DecideOrder(env, s, x, ids, now).Ok? {
      DecideMoves(env, s, x, ids, now, x.order);
    }
  }

  function TermAt(env: Env, s: Shop, i: nat): Option<Term>
    requires i < |s.memberships|
  {
    Some(TermOf(env.plans, s.memberships[i]))
  }

  /**
   * An approval renews the customer's one current membership by the rule of renewals, or opens a first one; the
   * customer has exactly one current membership afterwards, and no other row changes.
   */
  lemma ApprovalRenews(env: Env, s: Shop, x: DecideInput, ids: NewIds, now: int)
    requires PlansSound(env.plans) && OrdersMatchPlans(env, s) && x.order in s.orders && x.evidence in s.evidence
    requires Approve(env, s, x, s.orders[x.order], ids, now).Ok?
    ensures var order, current := s.orders[x.order], CurrentOf(s.memberships, s.orders[x.order].user);
      var after := Approve(env, s, x, order, ids, now).shop;
      var a := Approval(now, order.durationDays);
      && |current| <= 1
      && (|current| == 1 ==>
           && |after.memberships| == |s.memberships|
           && TermAt(env, after, current[0]) == Renew(TermAt(env, s, current[0]), a)
           && IsCurrentOf(after.memberships[current[0]], order.user)
           && forall i :: 0 <= i < |s.memberships| && i != current[0] ==> after.memberships[i] == s.memberships[i])
      && (current == [] ==>
           && |after.memberships| == |s.memberships| + 1
           && TermAt(env, after, |s.memberships|) == Renew(None, a)
           && IsCurrentOf(after.memberships[|s.memberships|], order.user)
           && after.memberships[..|s.memberships|] == s.memberships)
  {
  }

  /** An approval is refused for downgrading exactly when the current membership is for life and the order is not. */
  lemma DowngradeRefused(env: Env, s: Shop, x: DecideInput, ids: NewIds, now: int)
    requires x.order in s.orders && x.evidence in s.evidence && |CurrentOf(s.memberships, s.orders[x.order].user)| <= 1
    ensures var order, current := s.orders[x.order], CurrentOf(s.memberships, s.orders[x.order].user);
      Approve(env, s, x, order, ids, now) == Err(LifetimeDowngrade) <==>
        |current| == 1 && TermOf(env.plans, s.memberships[current[0]]).lifetime && order.durationDays.Some?
  {
  }

  // ----- The invitation trial -----

  lemma {:induction false} TrialListed(memberships: seq<Membership>, user: Id, i: nat)
    requires i < |memberships| && IsPendingTrial(memberships[i], user)
    ensures i in TrialsOf(memberships, user)
  {
    if i < |memberships| - 1 {
      TrialListed(memberships[..|memberships| - 1], user, i);
    }
  }

  lemma TrialGone(memberships: seq<Membership>, user: Id, now: int)
    requires ActivateTrial(memberships, user, now).Some?
    ensures var after := ActivateTrial(memberships, user, now).value;
      && |after| == |memberships|
      && (forall i :: 0 <= i < |after| ==> !IsPendingTrial(after[i], user))
      && forall i :: 0 <= i < |after| && after[i] != memberships[i] ==>
           && IsPendingTrial(memberships[i], user)
           && after[i] == memberships[i].(status := Active, startsAt := Some(now), expiresAt := Some(now + 3 * DAY))
  {
    var trials := TrialsOf(memberships, user);
    forall i | 0 <= i < |memberships| && IsPendingTrial(memberships[i], user) ensures |trials| == 1 && i == trials[0] {
      TrialListed(memberships, user, i);
    }
  }
}
