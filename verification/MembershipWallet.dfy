/** Wallets over whole runs: what they lose to orders is the price of the orders paid from them. */
module MembershipWallet {
  import opened Common
  import opened Idempotency
  import opened Membership
  import opened MembershipLaws
  import opened MembershipRuns
  import Decimal
  import D = Disclosure
  import L = Ledger
  import LL = LedgerLaws

  /** What an order took from a wallet: its price if it was paid from it, and nothing otherwise. */
  function TakenBy(o: Order, key: L.WalletKey): nat {
    if o.status == Activated && o.reviewedBy.None? && key == L.WalletKey(o.user, o.currency) then o.price else 0
  }

  ghost function Taken(orders: map<Id, Order>, key: L.WalletKey): int {
    MapSum(orders, o => TakenBy(o, key))
  }

  lemma TakenPut(orders: map<Id, Order>, id: Id, o: Order, key: L.WalletKey)
    ensures Taken(orders[id := o], key) ==
      Taken(orders, key) - (if id in orders then TakenBy(orders[id], key) else 0) + TakenBy(o, key)
  {
    MapSumPut(orders, id, o, o => TakenBy(o, key));
  }

  // ----- One payment -----

  lemma ZeroDelta()
    ensures Decimal.SignedUnits("0") == Some(0)
  {
    NothingToTrim("0");
    assert Decimal.ToNat("0") == 0 by {
      assert "0"[..0] == "";
    }
    assert Decimal.Whole("0") == "0" by {
      assert Decimal.Whole("0"[1..]) == "";
    }
    assert Decimal.ParsePlain("0") == Some(0);
  }

  lemma WalletDeltas(user: Id, price: int)
    requires price > 0
    ensures L.Deltas(L.WalletMutation(user, "-" + Decimal.ToDecimal(price), "0")) == Some((-price, 0))
  {
    Decimal.SignedRoundTrip(-price);
    ZeroDelta();
  }

  lemma PaymentDeltas(env: Env, x: PayInput, order: Order, membership: Id)
    requires L.CheckPostings(WalletInput(env, x, order, membership).postings).None?
    ensures L.Deltas(WalletInput(env, x, order, membership).wallet.value) == Some((-(order.price as int), 0))
  {
    hide L.Deltas, Decimal.ToDecimal, L.Total;
    var input := WalletInput(env, x, order, membership);
    LL.CheckedAmounts(input.postings);
    Decimal.UnitsRoundTrip(order.price);
    assert L.Units(input.postings[0]) == order.price;
    WalletDeltas(order.user, order.price);
  }

  /** What posting the payment of an order does to wallets. */
  lemma PaymentMoves(env: Env, books: L.Books, x: PayInput, order: Order, membership: Id, ids: PayIds,
                     key: L.WalletKey)
    requires LL.Inv(books) && L.TransactionByKey(books.transactions, LedgerKey(x.order)).None?
    requires PostPayment(env, books, x, order, membership, ids).Purchase?
    ensures var after := PostPayment(env, books, x, order, membership, ids).books;
      LL.Holding(after, key).0 == LL.Holding(books, key).0
        - (if key == L.WalletKey(order.user, order.currency) then order.price else 0)
      && LL.Holding(after, key).1 == LL.Holding(books, key).1
  {
    hide L.CheckPostings, L.Deltas, Decimal.ToDecimal, LL.Inv;
    AccountsOpen(books, order.user, order.currency);
    var b := PaymentAccounts(books, order.user, order.currency).value;
    var c := L.Command(WalletInput(env, x, order, membership), ids.transaction, ids.wallet);
    LL.NextShape(env.ledgerHash, b, c);
    PaymentDeltas(env, x, order, membership);
    LL.NextHolding(env.ledgerHash, b, c, key);
  }

  /** A payment is carried out only if the wallet covers it, and refused for want of funds only if it does not. */
  lemma PaymentIsCovered(env: Env, s: Shop, x: PayInput, ids: PayIds, now: int)
    requires Inv(s) && x.order in s.orders
    ensures var o, held := s.orders[x.order], LL.Holding(s.ledger, L.WalletKey(x.user, s.orders[x.order].currency)).0;
      && (PayOrder(env, s, x, ids, now).Ok? ==> o.price <= held)
      && (PayOrder(env, s, x, ids, now) == Err(Ledger(L.WalletInsufficient)) ==> held < o.price)
  {
    hide Activate, EntitlePaid, PostPayment, LL.Inv, LL.Holding, AllSound, LedgerKeys, CreditKeys, L.TransactionByKey;
    var order := s.orders[x.order];
    if x.user == order.user && order.status == PendingEvidence {
      UnpaidBefore(s, x.order);
      UnchargedKeyIsFree(s.ledger.transactions, s.ledger.rows, x.order);
      PostingIsCovered(env, s.ledger, x, order, EntitlePaid(s.memberships, order, ids.membership, now).id, ids);
      ShortOnlyWhenPosting(env, s, x, order, ids, now);
    }
  }

  lemma ShortOnlyWhenPosting(env: Env, s: Shop, x: PayInput, order: Order, ids: PayIds, now: int)
    ensures var posted := PostPayment(env, s.ledger, x, order,
                                      EntitlePaid(s.memberships, order, ids.membership, now).id, ids);
      && (ConcludePayment(env, s, x, order, ids, now).Ok? ==> posted.Purchase?)
      && (ConcludePayment(env, s, x, order, ids, now) == Err(Ledger(L.WalletInsufficient)) ==>
            posted == NoPurchase(L.WalletInsufficient))
  {
    hide EntitlePaid, PostPayment;
  }

  lemma PostingIsCovered(env: Env, books: L.Books, x: PayInput, order: Order, membership: Id, ids: PayIds)
    requires LL.Inv(books)
    ensures var posted, held := PostPayment(env, books, x, order, membership, ids),
                                LL.Holding(books, L.WalletKey(order.user, order.currency)).0;
      && (posted == NoPurchase(L.WalletInsufficient) ==> held < order.price)
      && (posted.Purchase? && L.TransactionByKey(books.transactions, LedgerKey(x.order)).None? ==> order.price <= held)
  {
    hide L.Post, L.CheckPostings, L.Deltas, Decimal.ToDecimal;
    AccountsOpen(books, order.user, order.currency);
    if PaymentAccounts(books, order.user, order.currency).Some? {
      var b := PaymentAccounts(books, order.user, order.currency).value;
      var input := WalletInput(env, x, order, membership);
      if L.CheckPostings(input.postings).Some? {
        BadPostingsAreRefused(env.ledgerHash, b, input, ids);
      } else {
        PaymentDeltas(env, x, order, membership);
        MoveIsCovered(env.ledgerHash, b, input, ids, order.price);
      }
    }
  }

  lemma MoveIsCovered(h: L.Hasher, b: L.Books, input: L.Input, ids: PayIds, price: int)
    requires LL.WalletsSound(b) && input.wallet.Some? && L.Deltas(input.wallet.value) == Some((-price, 0))
    ensures var o, held := L.Post(h, b, input, ids.transaction, ids.wallet),
                           LL.Holding(b, L.WalletKey(input.wallet.value.user, input.currency)).0;
      && (o == L.Err(L.WalletInsufficient) ==> held < price)
      && (o.Ok? && L.TransactionByKey(b.transactions, input.key).None? ==> price <= held)
  {
    var w := input.wallet.value;
    var key := L.WalletKey(w.user, input.currency);
    assert key in b.wallets ==> LL.WalletSound(b.versions, b.wallets[key]);
    if L.CheckPostings(input.postings).Some? {
      BadPostingsAreRefused(h, b, input, ids);
    }
  }

  lemma BadPostingsAreRefused(h: L.Hasher, b: L.Books, input: L.Input, ids: PayIds)
    requires L.CheckPostings(input.postings).Some?
    ensures var o := L.Post(h, b, input, ids.transaction, ids.wallet); o.Err? && o.error != L.WalletInsufficient
  {
    FirstBadIsAmount(input.postings);
  }

  lemma {:induction false} FirstBadIsAmount(postings: seq<L.Posting>)
    ensures L.FirstBad(postings) != Some(L.WalletInsufficient)
  {
    if postings != [] {
      FirstBadIsAmount(postings[..|postings| - 1]);
    }
  }

  /** Recorded evidence does not stand in the way: whether a payment goes through does not depend on it. */
  lemma PaymentIgnoresEvidence(env: Env, s: Shop, x: PayInput, ids: PayIds, now: int, other: map<Id, Evidence>)
    ensures PayOrder(env, s.(evidence := other), x, ids, now) ==
      match PayOrder(env, s, x, ids, now)
      case Ok(after, reply) => Ok(after.(evidence := other), reply)
      case Err(e) => Err(e)
  {
    hide EntitlePaid, PostPayment, C.Mutate;
  }

  // ----- Every run -----

  /** What a wallet holds together with what was taken from it for orders. */
  ghost function Brought(s: Shop, key: L.WalletKey): int {
    LL.Holding(s.ledger, key).0 + Taken(s.orders, key)
  }

  /** The wallet movement by another service's post. */
  function MovedByOthers(env: Env, s: Shop, step: Step, key: L.WalletKey): int {
    if step.LedgerStep? && ForeignPost(step.command.input)
    then LL.Movement(env.ledgerHash, s.ledger, step.command, key).0 else 0
  }

  function AllMovedByOthers(env: Env, s: Shop, steps: seq<Step>, key: L.WalletKey): int
    decreases |steps|
  {
    if steps == [] then 0
    else MovedByOthers(env, s, steps[0], key) + AllMovedByOthers(env, Next(env, s, steps[0]), steps[1..], key)
  }

  /** At most the order with this id differs, and nothing was taken for it, before or after. */
  ghost predicate TakesNothing(s: Shop, after: Shop, id: Id) {
    && after.ledger.wallets == s.ledger.wallets
    && (after.orders == s.orders
        || (id in after.orders && after.orders == s.orders[id := after.orders[id]]
            && forall key ::
              (id in s.orders ==> TakenBy(s.orders[id], key) == 0) && TakenBy(after.orders[id], key) == 0))
  }

  /** The ledger is as it was, and at most the order with this id differs, which is not activated before or after. */
  predicate PaysNothing(s: Shop, after: Shop, id: Id) {
    && after.ledger == s.ledger
    && (after.orders == s.orders
        || (id in after.orders && after.orders == s.orders[id := after.orders[id]]
            && (id in s.orders ==> s.orders[id].status != Activated) && after.orders[id].status != Activated))
  }

  lemma PayingNothingTakesNothing(s: Shop, after: Shop, id: Id)
    requires PaysNothing(s, after, id)
    ensures TakesNothing(s, after, id)
  {
  }

  lemma TakesNothingKeeps(s: Shop, after: Shop, id: Id, key: L.WalletKey)
    requires TakesNothing(s, after, id)
    ensures Brought(after, key) == Brought(s, key)
  {
    if after.orders != s.orders {
      TakenPut(s.orders, id, after.orders[id], key);
    }
  }

  /** An approval is charged to the clearing account, so no wallet moves. */
  lemma ApprovalKeepsWallets(env: Env, books: L.Books, x: DecideInput, order: Order, membership: Id, newTx: Id)
    requires LL.Inv(books) && PostPurchase(env, books, x, order, membership, newTx).Purchase?
    ensures PostPurchase(env, books, x, order, membership, newTx).books.wallets == books.wallets
  {
    hide LL.Inv, L.CheckPostings;
    AccountsOpen(books, order.user, order.currency);
    var b := ApprovalAccounts(books, order.currency).value;
    LL.NextShape(env.ledgerHash, b, L.Command(PurchaseInput(env, x, order, membership), newTx, ""));
  }

  lemma JudgementTakesNothing(env: Env, s: Shop, x: DecideInput, ids: NewIds, now: int)
    requires LL.Inv(s.ledger) && x.order in s.orders && Judge(env, s, x, s.orders[x.order], ids, now).Ok?
    ensures TakesNothing(s, Judge(env, s, x, s.orders[x.order], ids, now).shop, x.order)
  {
    hide LL.Inv, Entitle, PostPurchase;
    if x.approve {
      var order := s.orders[x.order];
      ApproveActivates(env, s, x, ids, now);
      var e := Entitle(env, s.memberships, order, ids.membership, now).entitlement;
      ApprovalKeepsWallets(env, s.ledger, x, order, e.id, ids.transaction);
    }
  }

  lemma DecisionTakesNothing(env: Env, s: Shop, x: DecideInput, ids: NewIds, now: int)
    requires LL.Inv(s.ledger)
    ensures TakesNothing(s, Next(env, s, DecideStep(x, ids, now)), x.order)
  {
    hide Next, LL.Inv, Judge, TakesNothing;
    NextDecide(env, s, x, ids, now);
    if DecideOrder(env, s, x, ids, now).Ok? {
      var order := s.orders[x.order];
      var work := Judge(env, s, x, order, ids, now);
      ClaimedWorks(s, DecideDescriptor(env, x, order), work);
      if work.Ok? {
        JudgementTakesNothing(env, s, x, ids, now);
        SameTaken(s, work.shop, Next(env, s, DecideStep(x, ids, now)), x.order);
      }
    }
    SameTaken(s, s, Next(env, s, DecideStep(x, ids, now)), x.order);
  }

  lemma SameTaken(s: Shop, work: Shop, after: Shop, id: Id)
    ensures TakesNothing(s, work, id) && after.ledger == work.ledger && after.orders == work.orders ==>
      TakesNothing(s, after, id)
    ensures after.ledger == s.ledger && after.orders == s.orders ==> TakesNothing(s, after, id)
  {
  }

  /** The order a step may write. */
  function Touched(step: Step): Id {
    match step
    case CreateStep(_, newId, _) => newId
    case SubmitStep(x) => x.order
    case DecideStep(x, _, _) => x.order
    case _ => ""
  }

  lemma OthersPayNothing(env: Env, s: Shop, step: Step)
    requires !step.DecideStep? && !step.PayStep? && !step.LedgerStep?
    ensures PaysNothing(s, Next(env, s, step), Touched(step))
  {
    hide CreateOrder, RecordEvidence, SubmitOrder, DecideOrder, PayOrder, AcceptDocuments, L.Next, C.Next, D.Next;
    match step
    case CreateStep(x, newId, now) => CreationPaysNothing(env, s, x, newId, now);
    case EvidenceStep(x, newId, now) => EvidenceMoves(env, s, x, newId, now);
      EvidenceKeepsLedger(env, s, x, newId, now);
    case SubmitStep(x) => SubmissionPaysNothing(env, s, x);
    case AcceptStep(x, now) => AcceptMovesNothing(env, s, x, now); AcceptanceKeepsLedger(env, s, x, now);
    case _ =>
  }

  lemma CreationPaysNothing(env: Env, s: Shop, x: CreateInput, newId: Id, now: int)
    ensures PaysNothing(s, Next(env, s, CreateStep(x, newId, now)), newId)
  {
    hide Next, CreateDescriptor, D.ConfigurationComplete, D.SuppliesCurrent, D.RecordAcceptances, ClaimKey, CompleteKey;
    NextCreate(env, s, x, newId, now);
  }

  lemma SubmissionPaysNothing(env: Env, s: Shop, x: SubmitInput)
    ensures PaysNothing(s, Next(env, s, SubmitStep(x)), x.order)
  {
    hide Next, SubmitDescriptor, ClaimKey, CompleteKey, HasEvidence;
    NextSubmit(env, s, x);
  }

  lemma EvidenceKeepsLedger(env: Env, s: Shop, x: EvidenceInput, newId: Id, now: int)
    ensures Next(env, s, EvidenceStep(x, newId, now)).ledger == s.ledger
  {
    hide Next, EvidenceValid, EvidenceDescriptor, EvidenceRow, ClaimKey, CompleteKey;
    NextEvidence(env, s, x, newId, now);
  }

  lemma AcceptanceKeepsLedger(env: Env, s: Shop, x: AcceptInput, now: int)
    ensures Next(env, s, AcceptStep(x, now)).ledger == s.ledger
  {
    hide Next, D.ConfigurationComplete, D.ConsentComplete, D.SuppliesCurrent, D.RecordAcceptances, ActivateTrial,
      AcceptDescriptor, ClaimKey, CompleteKey;
    NextAccept(env, s, x, now);
  }

  lemma PaymentKeepsBrought(env: Env, s: Shop, x: PayInput, ids: PayIds, now: int, key: L.WalletKey)
    requires Inv(s) && PayOrder(env, s, x, ids, now).Ok?
    ensures Brought(PayOrder(env, s, x, ids, now).shop, key) == Brought(s, key)
  {
    hide EntitlePaid, PostPayment, LL.Inv, AllSound, LedgerKeys, CreditKeys, LL.Holding, Taken;
    var order := s.orders[x.order];
    PaymentActivates(env, s, x, ids, now);
    UnpaidBefore(s, x.order);
    UnchargedKeyIsFree(s.ledger.transactions, s.ledger.rows, x.order);
    var e := EntitlePaid(s.memberships, order, ids.membership, now);
    PaymentMoves(env, s.ledger, x, order, e.id, ids, key);
    var after := PayOrder(env, s, x, ids, now).shop;
    TakenPut(s.orders, x.order, after.orders[x.order], key);
    WaitingIsUnreviewed(s, x.order);
  }

  lemma WaitingIsUnreviewed(s: Shop, id: Id)
    requires AllSound(s) && id in s.orders && s.orders[id].status == PendingEvidence
    ensures s.orders[id].reviewedBy.None?
  {
    assert Sound(FactsOf(s, id));
  }

  lemma StepKeepsBrought(env: Env, s: Shop, step: Step, key: L.WalletKey)
    requires Inv(s)
    ensures Brought(Next(env, s, step), key) == Brought(s, key) + MovedByOthers(env, s, step, key)
  {
    hide CreateOrder, RecordEvidence, SubmitOrder, AcceptDocuments, PayOrder, DecideOrder, AllSound, LedgerKeys,
      CreditKeys, LL.Inv, LL.Holding, Taken, LL.Movement, TakesNothing, L.Next, C.Next, D.Next;
    match step
    case DecideStep(x, ids, now) =>
      DecisionTakesNothing(env, s, x, ids, now);
      TakesNothingKeeps(s, Next(env, s, step), x.order, key);
    case PayStep(x, ids, now) =>
      if PayOrder(env, s, x, ids, now).Ok? {
        PaymentKeepsBrought(env, s, x, ids, now, key);
      }
    case LedgerStep(c) => LL.NextHolding(env.ledgerHash, s.ledger, c, key);
    case _ =>
      OthersPayNothing(env, s, step);
      PayingNothingTakesNothing(s, Next(env, s, step), Touched(step));
      TakesNothingKeeps(s, Next(env, s, step), Touched(step), key);
  }

  lemma {:induction false} RunKeepsBrought(env: Env, s: Shop, steps: seq<Step>, key: L.WalletKey)
    requires Inv(s)
    ensures Brought(Run(env, s, steps), key) == Brought(s, key) + AllMovedByOthers(env, s, steps, key)
    decreases |steps|
  {
    hide Inv, Brought, Next, MovedByOthers;
    if steps != [] {
      StepKeepsBrought(env, s, steps[0], key);
      NextKeepsInv(env, s, steps[0]);
      RunKeepsBrought(env, Next(env, s, steps[0]), steps[1..], key);
    }
  }

  /**
   * From an empty order table and without wallets, whatever happens in whatever order: a wallet holds what other
   * services have brought to it less the prices of the orders paid from it, each taken once, and never less than
   * nothing. In particular approvals and retries take nothing.
   */
  lemma WalletPaysForItsOrders(env: Env, board: D.Board, memberships: seq<Membership>, accounts: map<Id, L.Account>,
                               steps: seq<Step>, key: L.WalletKey)
    ensures var s := Later(env, board, memberships, accounts, steps);
      && LL.Holding(s.ledger, key).0 ==
         AllMovedByOthers(env, Opening(board, memberships, accounts), steps, key) - Taken(s.orders, key)
      && LL.Holding(s.ledger, key).0 >= 0
  {
    hide Inv, Next, Opening, Taken;
    var first := Opening(board, memberships, accounts);
    OpeningIsSound(board, memberships, accounts);
    LaterIsSound(env, board, memberships, accounts, steps);
    RunKeepsBrought(env, first, steps, key);
    NothingBrought(board, memberships, accounts, key);
    HoldingIsSound(Run(env, first, steps), key);
  }

  lemma NothingBrought(board: D.Board, memberships: seq<Membership>, accounts: map<Id, L.Account>, key: L.WalletKey)
    ensures Brought(Opening(board, memberships, accounts), key) == 0
  {
  }

  lemma HoldingIsSound(s: Shop, key: L.WalletKey)
    requires Inv(s)
    ensures LL.Holding(s.ledger, key).0 >= 0
  {
    hide AllSound, LedgerKeys, CreditKeys;
    var b := s.ledger;
    assert key in b.wallets ==> LL.WalletSound(b.versions, b.wallets[key]);
  }
}
