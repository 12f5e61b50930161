/** The ledger accounts of orders over whole runs: who is debited and who is credited. */
module MembershipBooks {
  import opened Common
  import opened Idempotency
  import opened Membership
  import opened MembershipLaws
  import opened MembershipRuns
  import opened MembershipWallet
  import Decimal
  import C = Credits
  import D = Disclosure
  import L = Ledger
  import LL = LedgerLaws

  // ----- Balances of accounts -----

  /** Credits less debits. */
  function Net(rows: seq<L.Row>, account: Id): int {
    if rows == [] then 0
    else
      var r := rows[|rows| - 1];
      Net(rows[..|rows| - 1], account)
      + if r.account != account then 0 else if r.side == L.Credit then r.amount else -(r.amount as int)
  }

  lemma {:induction false} NetAppend(a: seq<L.Row>, b: seq<L.Row>, account: Id)
    ensures Net(a + b, account) == Net(a, account) + Net(b, account)
  {
    if b == [] {
      assert a + b == a;
    } else {
      assert (a + b)[..|a + b| - 1] == a + b[..|b| - 1];
      NetAppend(a, b[..|b| - 1], account);
    }
  }

  /** An amount that goes from one account to another. */
  function Moved(from: Id, to: Id, amount: int, account: Id): int {
    (if account == to then amount else 0) - (if account == from then amount else 0)
  }

  lemma PairMoves(tx: Id, currency: string, from: Id, to: Id, price: nat, account: Id)
    ensures var text := Decimal.ToDecimal(price);
      Net(L.RowsOf(tx, currency, [L.Posting(from, L.Debit, text), L.Posting(to, L.Credit, text)]), account) ==
        Moved(from, to, price, account)
  {
    Decimal.UnitsRoundTrip(price);
    hide Decimal.ToDecimal;
    var text := Decimal.ToDecimal(price);
    var debit, credit := L.Posting(from, L.Debit, text), L.Posting(to, L.Credit, text);
    var rows := [L.Row(tx, from, L.Debit, price, currency), L.Row(tx, to, L.Credit, price, currency)];
    LL.RowsAre(tx, currency, [debit, credit]);
    assert L.RowsOf(tx, currency, [debit, credit]) == rows;
    assert rows[..1] == [rows[0]] && [rows[0]][..0] == [];
    assert Net([rows[0]], account) == Net([], account) + if from == account then -(price as int) else 0;
    assert Net(rows, account) == Net([rows[0]], account) + if to == account then price else 0;
  }

  // ----- What orders owe to accounts -----

  /** Who pays: the customer's own account, or the clearing account for a payment made elsewhere. */
  function Payer(o: Order): Id {
    if o.reviewedBy.None? then "ledger-user-" + o.user + "-available-" + L.Lower(o.currency)
    else "ledger-platform-platform_deposit_clearing-" + L.Lower(o.currency)
  }

  function Earner(o: Order): Id {
    "ledger-platform-platform_fee-" + L.Lower(o.currency)
  }

  /** An activated order has moved its price from its payer to the fee account. */
  function DueOf(o: Order, account: Id): int {
    if o.status == Activated then Moved(Payer(o), Earner(o), o.price, account) else 0
  }

  ghost function Due(orders: map<Id, Order>, account: Id): int {
    MapSum(orders, o => DueOf(o, account))
  }

  lemma DuePut(orders: map<Id, Order>, id: Id, o: Order, account: Id)
    ensures Due(orders[id := o], account) ==
      Due(orders, account) - (if id in orders then DueOf(orders[id], account) else 0) + DueOf(o, account)
  {
    MapSumPut(orders, id, o, o => DueOf(o, account));
  }

  // ----- One charge -----

  lemma PostNets(env: Env, b: L.Books, input: L.Input, newTx: Id, newWallet: Id, account: Id)
    requires L.TransactionByKey(b.transactions, input.key).None?
    requires PostOn(env, Some(b), input, newTx, newWallet).Purchase?
    ensures var paid := PostOn(env, Some(b), input, newTx, newWallet);
      Net(paid.books.rows, account) ==
        Net(b.rows, account) + Net(L.RowsOf(newTx, input.currency, input.postings), account)
  {
    hide L.Post, LL.Creates, L.CheckPostings, L.AccountsValid, L.Insertable, L.TransactionByKey, L.Deltas, L.RowsOf,
      Net;
    var c := L.Command(input, newTx, newWallet);
    FreePostCreates(env.ledgerHash, b, c);
    LL.NextShape(env.ledgerHash, b, c);
    NetAppend(b.rows, L.RowsOf(newTx, input.currency, input.postings), account);
  }

  /** An approval debits the clearing account and credits the fee account with the price. */
  lemma ApprovalNets(env: Env, books: L.Books, x: DecideInput, order: Order, membership: Id, newTx: Id, account: Id)
    requires LL.Inv(books) && L.TransactionByKey(books.transactions, LedgerKey(x.order)).None?
    requires PostPurchase(env, books, x, order, membership, newTx).Purchase?
    ensures Net(PostPurchase(env, books, x, order, membership, newTx).books.rows, account) ==
      Net(books.rows, account) + Moved("ledger-platform-platform_deposit_clearing-" + L.Lower(order.currency),
                                       "ledger-platform-platform_fee-" + L.Lower(order.currency), order.price, account)
  {
    hide LL.Inv, Net, L.RowsOf, Decimal.ToDecimal, L.Lower;
    AccountsOpen(books, order.user, order.currency);
    PostNets(env, ApprovalAccounts(books, order.currency).value, PurchaseInput(env, x, order, membership), newTx, "",
             account);
    PairMoves(newTx, order.currency, L.PlatformId(CLEARING, order.currency), L.PlatformId(FEE, order.currency),
              order.price, account);
    PlatformIds(order);
  }

  lemma PlatformIds(o: Order)
    ensures L.PlatformId(CLEARING, o.currency) == "ledger-platform-platform_deposit_clearing-" + L.Lower(o.currency)
    ensures L.PlatformId(FEE, o.currency) == "ledger-platform-platform_fee-" + L.Lower(o.currency)
    ensures L.UserId(o.user, o.currency) == "ledger-user-" + o.user + "-available-" + L.Lower(o.currency)
  {
    assert "ledger-platform-" + CLEARING + "-" == "ledger-platform-platform_deposit_clearing-";
    assert "ledger-platform-" + FEE + "-" == "ledger-platform-platform_fee-";
  }

  /** A payment debits the customer's own account instead. */
  lemma PaymentNets(env: Env, books: L.Books, x: PayInput, order: Order, membership: Id, ids: PayIds, account: Id)
    requires LL.Inv(books) && L.TransactionByKey(books.transactions, LedgerKey(x.order)).None?
    requires PostPayment(env, books, x, order, membership, ids).Purchase?
    ensures Net(PostPayment(env, books, x, order, membership, ids).books.rows, account) ==
      Net(books.rows, account) + Moved("ledger-user-" + order.user + "-available-" + L.Lower(order.currency),
                                       "ledger-platform-platform_fee-" + L.Lower(order.currency), order.price, account)
  {
    hide LL.Inv, Net, L.RowsOf, Decimal.ToDecimal, L.Lower;
    AccountsOpen(books, order.user, order.currency);
    PostNets(env, PaymentAccounts(books, order.user, order.currency).value, WalletInput(env, x, order, membership),
             ids.transaction, ids.wallet, account);
    PairMoves(ids.transaction, order.currency, L.UserId(order.user, order.currency), L.PlatformId(FEE, order.currency),
              order.price, account);
    PlatformIds(order);
  }

  // ----- Every run -----

  /** What an account has from elsewhere: its balance less what orders have moved. */
  ghost function FromElsewhere(s: Shop, account: Id): int {
    Net(s.ledger.rows, account) - Due(s.orders, account)
  }

  /** What another service's post moves on an account. */
  function NetByOthers(env: Env, s: Shop, step: Step, account: Id): int {
    if step.LedgerStep? then Net(Next(env, s, step).ledger.rows, account) - Net(s.ledger.rows, account) else 0
  }

  function AllNetByOthers(env: Env, s: Shop, steps: seq<Step>, account: Id): int
    decreases |steps|
  {
    if steps == [] then 0
    else NetByOthers(env, s, steps[0], account) + AllNetByOthers(env, Next(env, s, steps[0]), steps[1..], account)
  }

  lemma PaysNothingKeeps(s: Shop, after: Shop, id: Id, account: Id)
    requires PaysNothing(s, after, id)
    ensures FromElsewhere(after, account) == FromElsewhere(s, account)
  {
    hide Net, Due;
    if after.orders != s.orders {
      DuePut(s.orders, id, after.orders[id], account);
    }
  }

  lemma PaymentKeepsNet(env: Env, s: Shop, x: PayInput, ids: PayIds, now: int, account: Id)
    requires Inv(s) && PayOrder(env, s, x, ids, now).Ok?
    ensures FromElsewhere(PayOrder(env, s, x, ids, now).shop, account) == FromElsewhere(s, account)
  {
    hide EntitlePaid, PostPayment, LL.Inv, AllSound, LedgerKeys, CreditKeys, Net, Due;
    var order := s.orders[x.order];
    PaymentActivates(env, s, x, ids, now);
    UnpaidBefore(s, x.order);
    UnchargedKeyIsFree(s.ledger.transactions, s.ledger.rows, x.order);
    PaymentNets(env, s.ledger, x, order, EntitlePaid(s.memberships, order, ids.membership, now).id, ids, account);
    DuePut(s.orders, x.order, PayOrder(env, s, x, ids, now).shop.orders[x.order], account);
    WaitingIsUnreviewed(s, x.order);
  }

  lemma ApprovalKeepsNet(env: Env, s: Shop, x: DecideInput, ids: NewIds, now: int, account: Id)
    requires Inv(s) && Judged(s, x) && Approve(env, s, x, s.orders[x.order], ids, now).Ok?
    ensures FromElsewhere(Approve(env, s, x, s.orders[x.order], ids, now).shop, account) == FromElsewhere(s, account)
  {
    hide Entitle, PostPurchase, LL.Inv, AllSound, LedgerKeys, CreditKeys, Net, Due;
    var order := s.orders[x.order];
    ApproveActivates(env, s, x, ids, now);
    var e := Entitle(env, s.memberships, order, ids.membership, now).entitlement;
    UnpaidBefore(s, x.order);
    UnchargedKeyIsFree(s.ledger.transactions, s.ledger.rows, x.order);
    ApprovalNets(env, s.ledger, x, order, e.id, ids.transaction, account);
    DuePut(s.orders, x.order, Approve(env, s, x, order, ids, now).shop.orders[x.order], account);
  }

  lemma JudgementKeepsNet(env: Env, s: Shop, x: DecideInput, ids: NewIds, now: int, account: Id)
    requires Inv(s) && x.order in s.orders && Judge(env, s, x, s.orders[x.order], ids, now).Ok?
    ensures FromElsewhere(Judge(env, s, x, s.orders[x.order], ids, now).shop, account) == FromElsewhere(s, account)
  {
    hide Approve, Inv, FromElsewhere;
    if x.approve {
      ApprovalKeepsNet(env, s, x, ids, now, account);
    } else {
      PaysNothingKeeps(s, Reject(s, x, s.orders[x.order]).shop, x.order, account);
    }
  }

  lemma SameBooksSameNet(s: Shop, after: Shop, account: Id)
    requires after.ledger == s.ledger && after.orders == s.orders
    ensures FromElsewhere(after, account) == FromElsewhere(s, account)
  {
  }

  lemma DecisionKeepsNet(env: Env, s: Shop, x: DecideInput, ids: NewIds, now: int, account: Id)
    requires Inv(s)
    ensures FromElsewhere(Next(env, s, DecideStep(x, ids, now)), account) == FromElsewhere(s, account)
  {
    hide Next, Judge, Inv, FromElsewhere;
    NextDecide(env, s, x, ids, now);
    var after := Next(env, s, DecideStep(x, ids, now));
    if DecideOrder(env, s, x, ids, now).Ok? {
      var order := s.orders[x.order];
      var work := Judge(env, s, x, order, ids, now);
      ClaimedWorks(s, DecideDescriptor(env, x, order), work);
      if after != s {
        JudgementKeepsNet(env, s, x, ids, now, account);
        SameBooksSameNet(work.shop, after, account);
      }
    }
  }

  lemma StepKeepsNet(env: Env, s: Shop, step: Step, account: Id)
    requires Inv(s)
    ensures FromElsewhere(Next(env, s, step), account) == FromElsewhere(s, account) + NetByOthers(env, s, step, account)
  {
    hide Next, PayOrder, Inv, PaysNothing;
    match step
    case DecideStep(x, ids, now) => DecisionKeepsNet(env, s, x, ids, now, account);
    case PayStep(x, ids, now) =>
      NextPay(env, s, x, ids, now);
      if PayOrder(env, s, x, ids, now).Ok? {
        PaymentKeepsNet(env, s, x, ids, now, account);
      }
    case LedgerStep(c) => PostsKeepOrders(env, s, c);
    case _ =>
      OthersPayNothing(env, s, step);
      PaysNothingKeeps(s, Next(env, s, step), Touched(step), account);
  }

  lemma PostsKeepOrders(env: Env, s: Shop, c: L.Command)
    ensures Next(env, s, LedgerStep(c)).orders == s.orders
  {
    hide Exec, L.Next, D.Next, C.Next;
  }

  lemma {:induction false} RunKeepsNet(env: Env, s: Shop, steps: seq<Step>, account: Id)
    requires Inv(s)
    ensures FromElsewhere(Run(env, s, steps), account) ==
      FromElsewhere(s, account) + AllNetByOthers(env, s, steps, account)
    decreases |steps|
  {
    hide Inv, FromElsewhere, Next, NetByOthers;
    if steps != [] {
      StepKeepsNet(env, s, steps[0], account);
      NextKeepsInv(env, s, steps[0]);
      RunKeepsNet(env, Next(env, s, steps[0]), steps[1..], account);
    }
  }

  /**
   * From an empty order table and ledger, whatever happens: every account holds what other services have moved on
   * it, and for each activated order its price, once, out of the payer's account and into the fee account. The payer
   * is the customer's own account if the order was paid from the wallet, and the clearing account otherwise.
   */
  lemma AccountsFollowOrders(env: Env, board: D.Board, memberships: seq<Membership>, accounts: map<Id, L.Account>,
                             steps: seq<Step>, account: Id)
    ensures var s := Later(env, board, memberships, accounts, steps);
      Net(s.ledger.rows, account) ==
        AllNetByOthers(env, Opening(board, memberships, accounts), steps, account) + Due(s.orders, account)
  {
    hide Inv, Next, Opening, Due, Net;
    var first := Opening(board, memberships, accounts);
    OpeningIsSound(board, memberships, accounts);
    RunKeepsNet(env, first, steps, account);
    NothingFromElsewhere(board, memberships, accounts, account);
  }

  lemma NothingFromElsewhere(board: D.Board, memberships: seq<Membership>, accounts: map<Id, L.Account>, account: Id)
    ensures FromElsewhere(Opening(board, memberships, accounts), account) == 0
  {
  }
}
