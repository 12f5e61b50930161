/** What every run keeps about each order, whatever other services do in between. */
module MembershipLaws {
  import opened Common
  import opened Idempotency
  import opened Membership
  import Decimal
  import C = Credits
  import D = Disclosure
  import L = Ledger
  import LL = LedgerLaws

  // ----- What the tables say about one order -----

  /** A ledger transaction whose source is the order, with the sums of its rows. */
  datatype Charge = Charge(tx: Id, kind: L.Kind, currency: string, debit: nat, credit: nat)

  function ChargesOf(transactions: seq<L.Transaction>, rows: seq<L.Row>, order: Id): seq<Charge> {
    if transactions == [] then []
    else
      var n := |transactions| - 1;
      var t := transactions[n];
      ChargesOf(transactions[..n], rows, order)
      + if t.sourceType == ORDER && t.sourceId == order
        then [Charge(t.id, t.kind, t.currency, LL.Sum(rows, t.id, L.Debit), LL.Sum(rows, t.id, L.Credit))] else []
  }

  function GrantsOf(ledger: seq<C.Entry>, order: Id): seq<C.Mutation> {
    if ledger == [] then []
    else
      var n := |ledger| - 1;
      var m := ledger[n].mutation;
      GrantsOf(ledger[..n], order) + if m.sourceType == ORDER && m.sourceId == order then [m] else []
  }

  function EventsOf(events: seq<Event>, order: Id): seq<Event> {
    if events == [] then []
    else
      var n := |events| - 1;
      EventsOf(events[..n], order) + if events[n].order == order then [events[n]] else []
  }

  function DecisionsOf(decisions: seq<Decision>, order: Id): seq<Decision> {
    if decisions == [] then []
    else
      var n := |decisions| - 1;
      DecisionsOf(decisions[..n], order) + if decisions[n].order == order then [decisions[n]] else []
  }

  function ProofsOf(evidence: map<Id, Evidence>, order: Id): map<Id, Evidence> {
    map e | e in evidence && evidence[e].order == Some(order) :: evidence[e]
  }

  datatype Facts = Facts(
    order: Option<Order>, charges: seq<Charge>, grants: seq<C.Mutation>, events: seq<Event>,
    decisions: seq<Decision>, proofs: map<Id, Evidence>)

  function FactsOf(s: Shop, id: Id): Facts {
    Facts(if id in s.orders then Some(s.orders[id]) else None,
          ChargesOf(s.ledger.transactions, s.ledger.rows, id), GrantsOf(s.credits.ledger, id),
          EventsOf(s.events, id), DecisionsOf(s.decisions, id), ProofsOf(s.evidence, id))
  }

  /** Nothing has been paid out on the order. */
  predicate Unpaid(f: Facts) {
    f.charges == [] && f.grants == [] && f.events == []
  }

  /** Every piece of evidence is still unjudged, but for `judged`. */
  predicate OthersUnjudged(f: Facts, judged: Id) {
    forall e :: e in f.proofs && e != judged ==> f.proofs[e].status == Recorded
  }

  /** A decision by a third person: neither the submitter nor the recorder of the evidence it rests on. */
  predicate DecidedBy(o: Order, f: Facts, d: Decision) {
    && f.decisions == [d] && o.reviewedBy == Some(d.reviewer)
    && o.submittedBy.Some? && o.submittedBy != Some(d.reviewer)
    && d.evidence in f.proofs && OthersUnjudged(f, d.evidence)
    && var e := f.proofs[d.evidence];
       e.amount == o.price && e.currency == o.currency && e.recordedBy != d.reviewer
  }

  /**
   * The order has exactly one ledger transaction, of its price, exactly one credit grant, of its credits and to its
   * customer, and exactly one entitlement event.
   */
  predicate PaidOnce(o: Order, f: Facts) {
    && o.transaction.Some? && o.membership.Some?
    && f.charges == [Charge(o.transaction.value, L.MembershipPurchase, o.currency, o.price, o.price)]
    && |f.grants| == 1 && f.grants[0].user == o.user && f.grants[0].kind == C.Grant
    && f.grants[0].delta == C.Delta(o.grant, 0)
    && |f.events| == 1 && f.events[0].membership == o.membership.value && f.events[0].user == o.user
  }

  /** An approved order has one decision besides, and exactly one accepted piece of evidence. */
  predicate Settled(o: Order, f: Facts) {
    && |f.decisions| == 1 && f.decisions[0].approve && DecidedBy(o, f, f.decisions[0])
    && f.proofs[f.decisions[0].evidence].status == Accepted
    && PaidOnce(o, f)
  }

  /** An order paid from the wallet was never submitted or decided, and its evidence, if any, is left unjudged. */
  predicate PaidFromWallet(o: Order, f: Facts) {
    && f.decisions == [] && o.submittedBy.None? && o.reviewedBy.None? && PaidOnce(o, f)
    && forall e :: e in f.proofs ==> f.proofs[e].status == Recorded
  }

  predicate Sound(f: Facts) {
    match f.order
    case None => Unpaid(f) && f.decisions == [] && f.proofs == map[]
    case Some(o) =>
      match o.status
      case PendingEvidence =>
        Unpaid(f) && f.decisions == [] && o.submittedBy.None? && o.reviewedBy.None?
          && (forall e :: e in f.proofs ==> f.proofs[e].status == Recorded)
      case PendingReview =>
        && Unpaid(f) && f.decisions == [] && o.submittedBy.Some?
        && (forall e :: e in f.proofs ==> f.proofs[e].status == Recorded) && f.proofs != map[]
      case Rejected =>
        && Unpaid(f) && |f.decisions| == 1 && !f.decisions[0].approve && DecidedBy(o, f, f.decisions[0])
        && f.proofs[f.decisions[0].evidence].status == Refused
      case Activated => Settled(o, f) || PaidFromWallet(o, f)
  }

  /** Keys and sources of orders are used for nothing else in the ledger. */
  predicate LedgerKeys(transactions: seq<L.Transaction>) {
    forall i :: 0 <= i < |transactions| ==>
      var t := transactions[i];
      t.sourceType == ORDER || "membership-ledger:" <= t.key ==> t.sourceType == ORDER && t.key == LedgerKey(t.sourceId)
  }

  predicate CreditKeys(ledger: seq<C.Entry>) {
    forall i :: 0 <= i < |ledger| ==>
      var m := ledger[i].mutation;
      m.sourceType == ORDER || "membership-credit:" <= m.key ==> m.sourceType == ORDER && m.key == CreditKey(m.sourceId)
  }

  ghost predicate AllSound(s: Shop) {
    forall id: Id :: Sound(FactsOf(s, id))
  }

  ghost predicate Inv(s: Shop) {
    AllSound(s) && LedgerKeys(s.ledger.transactions) && CreditKeys(s.credits.ledger) && LL.Inv(s.ledger)
  }

  // ----- Keys -----

  lemma KeysCancel(a: Id, b: Id)
    ensures LedgerKey(a) == LedgerKey(b) ==> a == b
    ensures CreditKey(a) == CreditKey(b) ==> a == b
  {
    assert LedgerKey(a)[|"membership-ledger:"|..] == a && LedgerKey(b)[|"membership-ledger:"|..] == b;
    assert CreditKey(a)[|"membership-credit:"|..] == a && CreditKey(b)[|"membership-credit:"|..] == b;
  }

  lemma {:induction false} UnchargedKeyIsFree(transactions: seq<L.Transaction>, rows: seq<L.Row>, order: Id)
    requires LedgerKeys(transactions) && ChargesOf(transactions, rows, order) == []
    ensures L.TransactionByKey(transactions, LedgerKey(order)).None?
  {
    if transactions != [] {
      var n := |transactions| - 1;
      UnchargedKeyIsFree(transactions[..n], rows, order);
      KeysCancel(transactions[n].sourceId, order);
      assert "membership-ledger:" <= LedgerKey(order);
    }
  }

  lemma {:induction false} UngrantedKeyIsFree(ledger: seq<C.Entry>, order: Id)
    requires CreditKeys(ledger) && GrantsOf(ledger, order) == []
    ensures C.EntryByKey(ledger, CreditKey(order)).None?
  {
    if ledger != [] {
      var n := |ledger| - 1;
      UngrantedKeyIsFree(ledger[..n], order);
      KeysCancel(ledger[n].mutation.sourceId, order);
      assert "membership-credit:" <= CreditKey(order);
    }
  }

  // ----- Appending -----

  /** Rows of a new transaction do not touch the sums of the others. */
  lemma {:induction false} ChargesKeep(transactions: seq<L.Transaction>, rows: seq<L.Row>, added: seq<L.Row>, order: Id)
    requires forall i, side :: 0 <= i < |transactions| ==> LL.Sum(added, transactions[i].id, side) == 0
    ensures ChargesOf(transactions, rows + added, order) == ChargesOf(transactions, rows, order)
  {
    if transactions != [] {
      var n := |transactions| - 1;
      forall i, side | 0 <= i < n ensures LL.Sum(added, transactions[..n][i].id, side) == 0 {
        assert transactions[..n][i] == transactions[i];
      }
      ChargesKeep(transactions[..n], rows, added, order);
      LL.SumsAppend(rows, added, transactions[n].id, "", L.Debit);
      LL.SumsAppend(rows, added, transactions[n].id, "", L.Credit);
    }
  }

  lemma ChargesAppend(transactions: seq<L.Transaction>, t: L.Transaction, rows: seq<L.Row>, order: Id)
    ensures ChargesOf(transactions + [t], rows, order) == ChargesOf(transactions, rows, order)
      + if t.sourceType == ORDER && t.sourceId == order
        then [Charge(t.id, t.kind, t.currency, LL.Sum(rows, t.id, L.Debit), LL.Sum(rows, t.id, L.Credit))] else []
  {
    assert (transactions + [t])[..|transactions|] == transactions;
  }

  lemma GrantsAppend(ledger: seq<C.Entry>, e: C.Entry, order: Id)
    ensures GrantsOf(ledger + [e], order) == GrantsOf(ledger, order)
      + if e.mutation.sourceType == ORDER && e.mutation.sourceId == order then [e.mutation] else []
  {
    assert (ledger + [e])[..|ledger|] == ledger;
  }

  lemma {:induction false} ForeignGrants(before: seq<C.Entry>, after: seq<C.Entry>, order: Id)
    requires ForeignCredit(before, after)
    ensures GrantsOf(after, order) == GrantsOf(before, order)
    decreases |after|
  {
    if |after| == |before| {
      assert after == before;
    } else {
      ForeignGrants(before, after[..|after| - 1], order);
      assert ForeignEntry(after[|after| - 1]);
    }
  }

  lemma EventsAppend(events: seq<Event>, e: Event, order: Id)
    ensures EventsOf(events + [e], order) == EventsOf(events, order) + if e.order == order then [e] else []
  {
    assert (events + [e])[..|events|] == events;
  }

  lemma DecisionsAppend(decisions: seq<Decision>, d: Decision, order: Id)
    ensures DecisionsOf(decisions + [d], order) == DecisionsOf(decisions, order) + if d.order == order then [d] else []
  {
    assert (decisions + [d])[..|decisions|] == decisions;
  }

  /** A transaction written to the ledger is one more charge of its source, and nothing else changes. */
  lemma WrittenCharges(b: L.Books, t: L.Transaction, input: L.Input, order: Id)
    requires LL.RowsSound(b) && L.Insertable(b.transactions, t)
    ensures var after := LL.Written(b, t, input);
      ChargesOf(after.transactions, after.rows, order) == ChargesOf(b.transactions, b.rows, order)
        + if t.sourceType == ORDER && t.sourceId == order
          then [Charge(t.id, t.kind, t.currency, L.Total(input.postings, L.Debit), L.Total(input.postings, L.Credit))]
            else []
  {
    var added := L.RowsOf(t.id, input.currency, input.postings);
    forall i, side | 0 <= i < |b.transactions| ensures LL.Sum(added, b.transactions[i].id, side) == 0 {
      assert !L.Clash(b.transactions[i], t);
      LL.RowsSums(t.id, input.currency, input.postings, b.transactions[i].id, "", side);
    }
    ChargesKeep(b.transactions, b.rows, added, order);
    ChargesAppend(b.transactions, t, b.rows + added, order);
    forall side ensures LL.Sum(b.rows + added, t.id, side) == L.Total(input.postings, side) {
      forall k | 0 <= k < |b.rows| ensures b.rows[k].tx != t.id {
        assert LL.RowSound(b, b.rows[k]);
      }
      LL.NoRowsYet(b.rows, t.id, side);
      LL.SumsAppend(b.rows, added, t.id, "", side);
      LL.RowsSums(t.id, input.currency, input.postings, t.id, "", side);
    }
  }

  // ----- The purchase -----

  lemma TotalOfTwo(a: L.Posting, b: L.Posting, side: L.Side)
    ensures L.Total([a, b], side) ==
      (if a.side == side then L.Units(a) else 0) + (if b.side == side then L.Units(b) else 0)
  {
    assert [a, b][..1] == [a];
    assert [a][..0] == [];
    assert L.Total([a], side) == L.Total([], side) + (if a.side == side then L.Units(a) else 0);
  }

  /** A request that charges an order its price, under the order's own key. */
  predicate IsCharge(input: L.Input, id: Id, order: Order) {
    && input.kind == L.MembershipPurchase && input.sourceType == ORDER && input.sourceId == id
    && input.currency == order.currency && input.key == LedgerKey(id)
    && L.Total(input.postings, L.Debit) == order.price && L.Total(input.postings, L.Credit) == order.price
  }

  lemma PairTotals(debit: Id, credit: Id, price: nat)
    ensures var text := Decimal.ToDecimal(price);
      var postings := [L.Posting(debit, L.Debit, text), L.Posting(credit, L.Credit, text)];
      L.Total(postings, L.Debit) == price && L.Total(postings, L.Credit) == price
  {
    Decimal.UnitsRoundTrip(price);
    var text := Decimal.ToDecimal(price);
    TotalOfTwo(L.Posting(debit, L.Debit, text), L.Posting(credit, L.Credit, text), L.Debit);
    TotalOfTwo(L.Posting(debit, L.Debit, text), L.Posting(credit, L.Credit, text), L.Credit);
  }

  lemma PurchaseIsCharge(env: Env, x: DecideInput, order: Order, membership: Id)
    ensures IsCharge(PurchaseInput(env, x, order, membership), x.order, order)
  {
    PairTotals(L.PlatformId(CLEARING, order.currency), L.PlatformId(FEE, order.currency), order.price);
  }

  lemma PaymentIsCharge(env: Env, x: PayInput, order: Order, membership: Id)
    ensures IsCharge(WalletInput(env, x, order, membership), x.order, order)
  {
    PairTotals(L.UserId(order.user, order.currency), L.PlatformId(FEE, order.currency), order.price);
  }

  ghost predicate Opens(books: L.Books, ready: L.Books) {
    LL.Inv(ready) && ready.transactions == books.transactions && ready.rows == books.rows
      && ready.wallets == books.wallets
  }

  lemma AccountsOpen(books: L.Books, user: Id, currency: string)
    requires LL.Inv(books)
    ensures ApprovalAccounts(books, currency).Some? ==> Opens(books, ApprovalAccounts(books, currency).value)
    ensures PaymentAccounts(books, user, currency).Some? ==> Opens(books, PaymentAccounts(books, user, currency).value)
  {
    hide LL.Inv;
    var fee := L.PlatformId(FEE, currency);
    if ApprovalAccounts(books, currency).Some? {
      LL.EnsureKeepsInv(books, L.PlatformId(CLEARING, currency), L.Platform, CLEARING, currency);
      LL.EnsureKeepsInv(L.EnsurePlatform(books, CLEARING, currency).value, fee, L.Platform, FEE, currency);
    }
    if PaymentAccounts(books, user, currency).Some? {
      LL.EnsureKeepsInv(books, L.UserId(user, currency), L.User(user), L.USER_AVAILABLE, currency);
      LL.EnsureKeepsInv(L.EnsureUser(books, user, currency).value, fee, L.Platform, FEE, currency);
    }
  }

  /** The books after a charge of an order that was not charged before. */
  ghost predicate ChargedOnce(books: L.Books, paid: Purchase, id: Id, order: Order, newTx: Id) {
    && paid.Purchase? && paid.transaction == newTx && LL.Inv(paid.books) && LedgerKeys(paid.books.transactions)
    && forall other: Id :: ChargesOf(paid.books.transactions, paid.books.rows, other) ==
         ChargesOf(books.transactions, books.rows, other)
         + if other == id then [Charge(newTx, L.MembershipPurchase, order.currency, order.price, order.price)] else []
  }

  /** A post under a free key that goes through creates its transaction. */
  lemma FreePostCreates(h: L.Hasher, b: L.Books, c: L.Command)
    requires L.TransactionByKey(b.transactions, c.input.key).None?
    requires L.Post(h, b, c.input, c.newTx, c.newWallet).Ok?
    ensures LL.Creates(h, b, c) && L.Post(h, b, c.input, c.newTx, c.newWallet).id == c.newTx
    ensures L.Post(h, b, c.input, c.newTx, c.newWallet).books == L.Next(h, b, c)
  {
    hide L.CheckPostings, L.Deltas, L.AccountsValid, L.Insertable, L.TransactionByKey;
  }

  /** Posting a charge under a free key writes one transaction, a charge of the price, on this order alone. */
  lemma PostCharges(env: Env, b: L.Books, input: L.Input, newTx: Id, newWallet: Id, id: Id, order: Order)
    requires LL.Inv(b) && LedgerKeys(b.transactions) && L.TransactionByKey(b.transactions, LedgerKey(id)).None?
    requires IsCharge(input, id, order) && PostOn(env, Some(b), input, newTx, newWallet).Purchase?
    ensures ChargedOnce(b, PostOn(env, Some(b), input, newTx, newWallet), id, order, newTx)
  {
    hide L.Post, L.Next, LL.Creates, L.CheckPostings, L.AccountsValid, L.Insertable, L.TransactionByKey, L.Total,
      L.Deltas,
      L.MoveWallet;
    var c := L.Command(input, newTx, newWallet);
    var after := L.Next(env.ledgerHash, b, c);
    FreePostCreates(env.ledgerHash, b, c);
    LL.NextShape(env.ledgerHash, b, c);
    LL.NextKeepsInv(env.ledgerHash, b, c);
    ChargeKeepsKeys(env.ledgerHash, b, c, id, order);
    forall other: Id
      ensures ChargesOf(after.transactions, after.rows, other) == ChargesOf(b.transactions, b.rows, other)
        + if other == id then [Charge(newTx, L.MembershipPurchase, order.currency, order.price, order.price)] else []
    {
      ChargeIsListed(env.ledgerHash, b, c, id, order, other);
    }
  }

  lemma ChargeKeepsKeys(h: L.Hasher, b: L.Books, c: L.Command, id: Id, order: Order)
    requires LedgerKeys(b.transactions) && IsCharge(c.input, id, order) && LL.Creates(h, b, c)
    ensures LedgerKeys(L.Next(h, b, c).transactions)
  {
    LL.NextShape(h, b, c);
  }

  lemma ChargeIsListed(h: L.Hasher, b: L.Books, c: L.Command, id: Id, order: Order, other: Id)
    requires LL.RowsSound(b) && IsCharge(c.input, id, order) && LL.Creates(h, b, c)
    ensures var after := L.Next(h, b, c);
      ChargesOf(after.transactions, after.rows, other) == ChargesOf(b.transactions, b.rows, other)
        + if other == id then [Charge(c.newTx, L.MembershipPurchase, order.currency, order.price, order.price)] else []
  {
    hide L.Post, LL.Creates, L.CheckPostings, L.AccountsValid, L.Insertable, L.TransactionByKey, L.Total, L.Deltas;
    LL.NextShape(h, b, c);
    WrittenCharges(b, L.TransactionOf(h, c.input, c.newTx, true), c.input, other);
  }

  /** The transaction of an approval is a charge of the price, on this order alone. */
  lemma PurchaseCharges(env: Env, books: L.Books, x: DecideInput, order: Order, membership: Id, newTx: Id)
    requires LL.Inv(books) && LedgerKeys(books.transactions)
    requires L.TransactionByKey(books.transactions, LedgerKey(x.order)).None?
    requires PostPurchase(env, books, x, order, membership, newTx).Purchase?
    ensures ChargedOnce(books, PostPurchase(env, books, x, order, membership, newTx), x.order, order, newTx)
  {
    AccountsOpen(books, order.user, order.currency);
    PurchaseIsCharge(env, x, order, membership);
    PostCharges(env, ApprovalAccounts(books, order.currency).value, PurchaseInput(env, x, order, membership), newTx, "",
                x.order, order);
  }

  /** And so is that of a payment from the wallet. */
  lemma PaymentCharges(env: Env, books: L.Books, x: PayInput, order: Order, membership: Id, ids: PayIds)
    requires LL.Inv(books) && LedgerKeys(books.transactions)
    requires L.TransactionByKey(books.transactions, LedgerKey(x.order)).None?
    requires PostPayment(env, books, x, order, membership, ids).Purchase?
    ensures ChargedOnce(books, PostPayment(env, books, x, order, membership, ids), x.order, order, ids.transaction)
  {
    AccountsOpen(books, order.user, order.currency);
    PaymentIsCharge(env, x, order, membership);
    PostCharges(env, PaymentAccounts(books, order.user, order.currency).value, WalletInput(env, x, order, membership),
                ids.transaction, ids.wallet, x.order, order);
  }

  lemma CreditKeysAppend(ledger: seq<C.Entry>, e: C.Entry)
    requires CreditKeys(ledger) && e.mutation.sourceType == ORDER && e.mutation.key == CreditKey(e.mutation.sourceId)
    ensures CreditKeys(ledger + [e])
  {
  }

  /** Granting under a free key writes one entry, for this order alone. */
  lemma GrantWrites(b: C.Book, id: Id, order: Order, requestId: string, actor: Id, other: Id)
    requires CreditKeys(b.ledger) && C.EntryByKey(b.ledger, CreditKey(id)).None?
    requires C.Mutate(b, GrantOf(id, order, requestId, actor)).Ok?
    ensures var grant := GrantOf(id, order, requestId, actor);
      var after := C.Mutate(b, grant).book;
      && CreditKeys(after.ledger)
      && GrantsOf(after.ledger, other) == GrantsOf(b.ledger, other) + if other == id then [grant] else []
  {
    var grant := GrantOf(id, order, requestId, actor);
    var after := C.Mutate(b, grant).book;
    var e := after.ledger[|b.ledger|];
    assert after.ledger == b.ledger + [e] && e.mutation == grant;
    CreditKeysAppend(b.ledger, e);
    GrantsAppend(b.ledger, e, other);
  }

  // ----- Activation -----

  function WithPayout(f: Facts, order: Order, grant: C.Mutation, e: Event): Facts {
    f.(order := Some(order), grants := f.grants + [grant], events := f.events + [e])
  }

  /** Activating an order changes the facts about this order alone. */
  lemma ActivateFacts(s: Shop, id: Id, order: Order, e: Entitlement, requestId: string, actor: Id, now: int,
                      reply: Reply, other: Id)
    requires CreditKeys(s.credits.ledger) && GrantsOf(s.credits.ledger, id) == []
    requires Activate(s, id, order, e, GrantOf(id, order, requestId, actor), now, reply).Ok?
    ensures var grant := GrantOf(id, order, requestId, actor);
      var after := Activate(s, id, order, e, grant, now, reply).shop;
      && CreditKeys(after.credits.ledger)
      && after.ledger == s.ledger
      && FactsOf(after, other) ==
         if other == id
         then WithPayout(FactsOf(s, id), order.(status := Activated, membership := Some(e.id)), grant,
                         Event(e.id, id, order.user, e.kind, now, e.expires))
         else FactsOf(s, other)
  {
    UngrantedKeyIsFree(s.credits.ledger, id);
    GrantWrites(s.credits, id, order, requestId, actor, other);
    EventsAppend(s.events, Event(e.id, id, order.user, e.kind, now, e.expires), other);
  }

  // ----- Steps -----

  /** Records do not belong to the facts. */
  lemma ClaimedKeeps(s: Shop, d: Descriptor, work: Outcome)
    requires Inv(s) && (work.Ok? ==> Inv(work.shop))
    requires Claimed(s, d, work).Ok?
    ensures Inv(Claimed(s, d, work).shop)
  {
    var after := Claimed(s, d, work).shop;
    if work.Ok? && after != s {
      forall id ensures Sound(FactsOf(after, id)) {
        assert FactsOf(after, id) == FactsOf(work.shop, id);
      }
    }
  }

  lemma CreateKeeps(env: Env, s: Shop, x: CreateInput, newId: Id, now: int)
    requires Inv(s) && NewOrder(env, s, x, newId, now).Ok?
    ensures Inv(NewOrder(env, s, x, newId, now).shop)
  {
    var after := NewOrder(env, s, x, newId, now).shop;
    forall id ensures Sound(FactsOf(after, id)) {
      assert Sound(FactsOf(s, id));
      assert id != newId ==> FactsOf(after, id) == FactsOf(s, id);
    }
  }

  lemma ProofAdded(evidence: map<Id, Evidence>, newId: Id, row: Evidence, id: Id)
    requires newId !in evidence
    ensures ProofsOf(evidence[newId := row], id) ==
      if row.order == Some(id) then ProofsOf(evidence, id)[newId := row] else ProofsOf(evidence, id)
  {
  }

  lemma EvidenceKeeps(s: Shop, x: Id, row: Evidence, newId: Id)
    requires Inv(s) && x in s.orders && row.order == Some(x) && row.status == Recorded
    requires KeepEvidence(s, row, s.orders[x], newId).Ok?
    ensures Inv(KeepEvidence(s, row, s.orders[x], newId).shop)
  {
    var after := KeepEvidence(s, row, s.orders[x], newId).shop;
    if after != s {
      assert after.evidence == s.evidence[newId := row] && newId !in s.evidence;
      forall id ensures Sound(FactsOf(after, id)) {
        assert Sound(FactsOf(s, id));
        ProofAdded(s.evidence, newId, row, id);
        assert FactsOf(after, id) == FactsOf(s, id).(proofs := ProofsOf(after.evidence, id));
      }
    }
  }

  lemma SubmitKeeps(s: Shop, x: SubmitInput)
    requires Inv(s) && x.order in s.orders && MarkSubmitted(s, x, s.orders[x.order]).Ok?
    ensures Inv(MarkSubmitted(s, x, s.orders[x.order]).shop)
  {
    var after := MarkSubmitted(s, x, s.orders[x.order]).shop;
    forall id ensures Sound(FactsOf(after, id)) {
      assert Sound(FactsOf(s, id));
      if id != x.order {
        assert FactsOf(after, id) == FactsOf(s, id);
      } else {
        var e :| e in s.evidence && s.evidence[e].order == Some(x.order);
        assert e in ProofsOf(after.evidence, id);
      }
    }
  }

  /** What a judgement presupposes. */
  predicate Judged(s: Shop, x: DecideInput) {
    && x.order in s.orders
    && var order := s.orders[x.order];
       && order.status == PendingReview && order.submittedBy.Some? && order.submittedBy != Some(x.reviewer)
       && EvidenceMatches(s, x, order) && s.evidence[x.evidence].recordedBy != x.reviewer
  }

  lemma MarkKeepsOthers(s: Shop, x: DecideInput, status: EvidenceStatus, id: Id)
    requires Judged(s, x) && id != x.order
    ensures ProofsOf(Mark(s.evidence, x.evidence, status), id) == ProofsOf(s.evidence, id)
  {
  }

  lemma MarkJudges(s: Shop, x: DecideInput, status: EvidenceStatus)
    requires Judged(s, x)
    ensures ProofsOf(Mark(s.evidence, x.evidence, status), x.order) ==
      ProofsOf(s.evidence, x.order)[x.evidence := s.evidence[x.evidence].(status := status)]
  {
  }

  /** What a rejection adds to the facts about its order. */
  function Turned(f: Facts, x: DecideInput, order: Order): Facts
    requires x.evidence in f.proofs
  {
    f.(order := Some(order.(status := Rejected, reviewedBy := Some(x.reviewer))),
       decisions := f.decisions + [DecisionOf(x)],
       proofs := f.proofs[x.evidence := f.proofs[x.evidence].(status := Refused)])
  }

  lemma RejectFacts(s: Shop, x: DecideInput, id: Id)
    requires Judged(s, x)
    ensures x.evidence in FactsOf(s, x.order).proofs
    ensures FactsOf(Reject(s, x, s.orders[x.order]).shop, id) ==
      if id == x.order then Turned(FactsOf(s, id), x, s.orders[x.order]) else FactsOf(s, id)
  {
    DecisionsAppend(s.decisions, DecisionOf(x), id);
    if id != x.order {
      MarkKeepsOthers(s, x, Refused, id);
    } else {
      MarkJudges(s, x, Refused);
    }
  }

  lemma TurnedIsSound(f: Facts, x: DecideInput, order: Order)
    requires Sound(f) && f.order == Some(order) && order.status == PendingReview
      && order.submittedBy != Some(x.reviewer)
    requires !x.approve && x.evidence in f.proofs
    requires var p := f.proofs[x.evidence];
      p.amount == order.price && p.currency == order.currency && p.recordedBy != x.reviewer
    ensures Sound(Turned(f, x, order))
  {
  }

  lemma RejectIsSound(s: Shop, x: DecideInput, id: Id)
    requires Judged(s, x) && !x.approve && Sound(FactsOf(s, id)) && Sound(FactsOf(s, x.order))
    ensures Sound(FactsOf(Reject(s, x, s.orders[x.order]).shop, id))
  {
    RejectFacts(s, x, id);
    if id == x.order {
      TurnedIsSound(FactsOf(s, id), x, s.orders[x.order]);
    }
  }

  lemma RejectKeeps(s: Shop, x: DecideInput)
    requires Inv(s) && Judged(s, x) && !x.approve
    ensures Inv(Reject(s, x, s.orders[x.order]).shop)
  {
    forall id ensures Sound(FactsOf(Reject(s, x, s.orders[x.order]).shop, id)) {
      assert Sound(FactsOf(s, id)) && Sound(FactsOf(s, x.order));
      RejectIsSound(s, x, id);
    }
  }

  /** The ledgers are fit for an order that nothing has been paid out on. */
  ghost predicate Payable(s: Shop, order: Id) {
    && LedgerKeys(s.ledger.transactions) && CreditKeys(s.credits.ledger) && LL.Inv(s.ledger)
    && ChargesOf(s.ledger.transactions, s.ledger.rows, order) == [] && GrantsOf(s.credits.ledger, order) == []
  }

  ghost predicate BooksKept(s: Shop) {
    LedgerKeys(s.ledger.transactions) && CreditKeys(s.credits.ledger) && LL.Inv(s.ledger)
  }

  function ChargeOf(order: Order, tx: Id): Charge {
    Charge(tx, L.MembershipPurchase, order.currency, order.price, order.price)
  }

  /** What an approval adds to the facts about its order. */
  function Approved(f: Facts, x: DecideInput, order: Order, tx: Id, e: Event): Facts
    requires x.evidence in f.proofs
  {
    Facts(Some(order.(status := Activated, reviewedBy := Some(x.reviewer), membership := Some(e.membership),
                      transaction := Some(tx))),
          f.charges + [ChargeOf(order, tx)], f.grants + [GrantOf(x.order, order, x.requestId, x.reviewer)],
          f.events + [e], f.decisions + [DecisionOf(x)],
          f.proofs[x.evidence := f.proofs[x.evidence].(status := Accepted)])
  }

  /** The event an approval records. */
  function EventOf(env: Env, s: Shop, x: DecideInput, ids: NewIds, now: int): Event
    requires x.order in s.orders && Entitle(env, s.memberships, s.orders[x.order], ids.membership, now).Entitled?
  {
    var entitlement := Entitle(env, s.memberships, s.orders[x.order], ids.membership, now).entitlement;
    Event(entitlement.id, x.order, s.orders[x.order].user, entitlement.kind, now, entitlement.expires)
  }

  /** The shop in which an approval activates its order: posted, decided and entitled. */
  function Prepared(env: Env, s: Shop, x: DecideInput, e: Entitlement, newTx: Id): Shop
    requires x.order in s.orders && x.evidence in s.evidence
    requires PostPurchase(env, s.ledger, x, s.orders[x.order], e.id, newTx).Purchase?
  {
    s.(decisions := s.decisions + [DecisionOf(x)], memberships := e.memberships,
       ledger := PostPurchase(env, s.ledger, x, s.orders[x.order], e.id, newTx).books,
       evidence := Mark(s.evidence, x.evidence, Accepted))
  }

  lemma PreparedBooks(env: Env, s: Shop, x: DecideInput, e: Entitlement, newTx: Id)
    requires Payable(s, x.order) && x.order in s.orders && x.evidence in s.evidence
    requires PostPurchase(env, s.ledger, x, s.orders[x.order], e.id, newTx).Purchase?
    ensures var paid := PostPurchase(env, s.ledger, x, s.orders[x.order], e.id, newTx);
      && Prepared(env, s, x, e, newTx).ledger == paid.books
      && ChargedOnce(s.ledger, paid, x.order, s.orders[x.order], newTx)
  {
    hide PostPurchase, LL.Inv, LedgerKeys, CreditKeys, ChargesOf;
    UnchargedKeyIsFree(s.ledger.transactions, s.ledger.rows, x.order);
    PurchaseCharges(env, s.ledger, x, s.orders[x.order], e.id, newTx);
  }

  lemma PreparedFacts(env: Env, s: Shop, x: DecideInput, e: Entitlement, newTx: Id, id: Id)
    requires Payable(s, x.order) && Judged(s, x)
    requires PostPurchase(env, s.ledger, x, s.orders[x.order], e.id, newTx).Purchase?
    ensures x.evidence in FactsOf(s, x.order).proofs
    ensures var after, f := Prepared(env, s, x, e, newTx), FactsOf(s, id);
      && LedgerKeys(after.ledger.transactions) && LL.Inv(after.ledger)
      && PostPurchase(env, s.ledger, x, s.orders[x.order], e.id, newTx).transaction == newTx
      && FactsOf(after, id) ==
         if id == x.order
         then f.(charges := f.charges + [ChargeOf(s.orders[id], newTx)], decisions := f.decisions + [DecisionOf(x)],
                 proofs := f.proofs[x.evidence := f.proofs[x.evidence].(status := Accepted)])
         else f
  {
    hide PostPurchase, LL.Inv, LedgerKeys, CreditKeys, ChargesOf, GrantsOf, EventsOf, DecisionsOf, ProofsOf;
    PreparedBooks(env, s, x, e, newTx);
    DecisionsAppend(s.decisions, DecisionOf(x), id);
    EvidenceListed(s, x);
    if id != x.order {
      MarkKeepsOthers(s, x, Accepted, id);
    } else {
      MarkJudges(s, x, Accepted);
    }
  }

  lemma EvidenceListed(s: Shop, x: DecideInput)
    requires Judged(s, x)
    ensures x.evidence in ProofsOf(s.evidence, x.order)
    ensures ProofsOf(s.evidence, x.order)[x.evidence] == s.evidence[x.evidence]
  {
  }

  /** An approval is the activation of its order in the prepared shop. */
  lemma ApproveActivates(env: Env, s: Shop, x: DecideInput, ids: NewIds, now: int)
    requires Judged(s, x) && Approve(env, s, x, s.orders[x.order], ids, now).Ok?
    ensures Entitle(env, s.memberships, s.orders[x.order], ids.membership, now).Entitled?
    ensures var order := s.orders[x.order];
      var e := Entitle(env, s.memberships, order, ids.membership, now).entitlement;
      var paid := PostPurchase(env, s.ledger, x, order, e.id, ids.transaction);
      && paid.Purchase?
      && Approve(env, s, x, order, ids, now) ==
         Activate(Prepared(env, s, x, e, ids.transaction), x.order,
                  order.(reviewedBy := Some(x.reviewer), transaction := Some(paid.transaction)), e,
                  GrantOf(x.order, order, x.requestId, x.reviewer), now,
                  OrderActivated(e.id, paid.transaction, x.evidence))
  {
    hide Entitle, PostPurchase, Activate;
  }

  lemma ApproveFacts(env: Env, s: Shop, x: DecideInput, ids: NewIds, now: int, id: Id)
    requires Payable(s, x.order) && Judged(s, x) && Approve(env, s, x, s.orders[x.order], ids, now).Ok?
    ensures x.evidence in FactsOf(s, x.order).proofs
      && Entitle(env, s.memberships, s.orders[x.order], ids.membership, now).Entitled?
    ensures var after, e := Approve(env, s, x, s.orders[x.order], ids, now).shop, EventOf(env, s, x, ids, now);
      && BooksKept(after)
      && FactsOf(after, id) ==
         if id == x.order then Approved(FactsOf(s, id), x, s.orders[x.order], ids.transaction, e) else FactsOf(s, id)
  {
    hide Entitle, PostPurchase, Activate, Approve, LL.Inv, LedgerKeys, CreditKeys, FactsOf;
    ApproveActivates(env, s, x, ids, now);
    var order := s.orders[x.order];
    var e := Entitle(env, s.memberships, order, ids.membership, now).entitlement;
    PreparedFacts(env, s, x, e, ids.transaction, id);
    PreparedFacts(env, s, x, e, ids.transaction, x.order);
    ActivateFacts(Prepared(env, s, x, e, ids.transaction), x.order,
                  order.(reviewedBy := Some(x.reviewer), transaction := Some(ids.transaction)), e, x.requestId,
                  x.reviewer, now, OrderActivated(e.id, ids.transaction, x.evidence), id);
  }

  /** An approval of an order on which nothing was paid out settles it, and touches no other order. */
  lemma ApproveSettles(env: Env, s: Shop, x: DecideInput, ids: NewIds, now: int, id: Id)
    requires Inv(s) && Judged(s, x) && x.approve && Approve(env, s, x, s.orders[x.order], ids, now).Ok?
    ensures Sound(FactsOf(Approve(env, s, x, s.orders[x.order], ids, now).shop, id))
  {
    hide Approve, LL.Inv, LedgerKeys, CreditKeys;
    assert Sound(FactsOf(s, x.order)) && Sound(FactsOf(s, id));
    ApproveFacts(env, s, x, ids, now, id);
    if id == x.order {
      SettledByApproval(FactsOf(s, x.order), x, s.orders[x.order], ids.transaction, EventOf(env, s, x, ids, now));
    }
  }

  lemma SettledByApproval(f: Facts, x: DecideInput, order: Order, tx: Id, e: Event)
    requires Sound(f) && f.order == Some(order) && order.status == PendingReview
      && order.submittedBy != Some(x.reviewer)
    requires x.approve && x.evidence in f.proofs
    requires var p := f.proofs[x.evidence];
      p.amount == order.price && p.currency == order.currency && p.recordedBy != x.reviewer
    requires e.user == order.user
    ensures Sound(Approved(f, x, order, tx, e))
  {
  }

  lemma ApproveKeeps(env: Env, s: Shop, x: DecideInput, ids: NewIds, now: int)
    requires Inv(s) && Judged(s, x) && x.approve && Approve(env, s, x, s.orders[x.order], ids, now).Ok?
    ensures Inv(Approve(env, s, x, s.orders[x.order], ids, now).shop)
  {
    hide Approve, LL.Inv, LedgerKeys, CreditKeys;
    assert Sound(FactsOf(s, x.order));
    ApproveFacts(env, s, x, ids, now, x.order);
    forall id ensures Sound(FactsOf(Approve(env, s, x, s.orders[x.order], ids, now).shop, id)) {
      ApproveSettles(env, s, x, ids, now, id);
    }
  }

  // ----- Payment from the wallet -----

  /** What a payment adds to the facts about its order. */
  function PaidFacts(f: Facts, x: PayInput, order: Order, tx: Id, e: Event): Facts {
    f.(order := Some(order.(status := Activated, membership := Some(e.membership), transaction := Some(tx))),
       charges := f.charges + [ChargeOf(order, tx)],
         grants := f.grants + [GrantOf(x.order, order, x.requestId, order.user)],
       events := f.events + [e])
  }

  function PaymentEvent(s: Shop, x: PayInput, ids: PayIds, now: int): Event
    requires x.order in s.orders
  {
    var e := EntitlePaid(s.memberships, s.orders[x.order], ids.membership, now);
    Event(e.id, x.order, s.orders[x.order].user, e.kind, now, e.expires)
  }

  lemma PaymentActivates(env: Env, s: Shop, x: PayInput, ids: PayIds, now: int)
    requires PayOrder(env, s, x, ids, now).Ok?
    ensures x.order in s.orders && s.orders[x.order].status == PendingEvidence && s.orders[x.order].user == x.user
    ensures var order := s.orders[x.order];
      var e := EntitlePaid(s.memberships, order, ids.membership, now);
      var paid := PostPayment(env, s.ledger, x, order, e.id, ids);
      && paid.Purchase?
      && PayOrder(env, s, x, ids, now) ==
         Activate(s.(ledger := paid.books, memberships := e.memberships), x.order,
                  order.(transaction := Some(paid.transaction)), e, GrantOf(x.order, order, x.requestId, order.user),
                  now, OrderPaid(e.id, paid.transaction))
  {
    hide EntitlePaid, PostPayment, Activate;
  }

  lemma PaymentFacts(env: Env, s: Shop, x: PayInput, ids: PayIds, now: int, id: Id)
    requires Payable(s, x.order) && PayOrder(env, s, x, ids, now).Ok?
    ensures x.order in s.orders
    ensures var after, e := PayOrder(env, s, x, ids, now).shop, PaymentEvent(s, x, ids, now);
      && BooksKept(after)
      && FactsOf(after, id) ==
         if id == x.order then PaidFacts(FactsOf(s, id), x, s.orders[x.order], ids.transaction, e) else FactsOf(s, id)
  {
    hide EntitlePaid, PostPayment, Activate, PayOrder, LL.Inv, LedgerKeys, CreditKeys;
    PaymentActivates(env, s, x, ids, now);
    var order := s.orders[x.order];
    var e := EntitlePaid(s.memberships, order, ids.membership, now);
    var paid := PostPayment(env, s.ledger, x, order, e.id, ids);
    UnchargedKeyIsFree(s.ledger.transactions, s.ledger.rows, x.order);
    PaymentCharges(env, s.ledger, x, order, e.id, ids);
    ActivateFacts(s.(ledger := paid.books, memberships := e.memberships), x.order,
                  order.(transaction := Some(ids.transaction)), e, x.requestId, order.user, now,
                  OrderPaid(e.id, ids.transaction), id);
  }

  lemma SettledByPayment(f: Facts, x: PayInput, order: Order, tx: Id, e: Event)
    requires Sound(f) && f.order == Some(order) && order.status == PendingEvidence && e.user == order.user
    ensures Sound(PaidFacts(f, x, order, tx, e))
  {
  }

  /** A payment from the wallet pays its order once, and touches no other order. */
  lemma PaymentKeeps(env: Env, s: Shop, x: PayInput, ids: PayIds, now: int)
    requires Inv(s) && PayOrder(env, s, x, ids, now).Ok?
    ensures Inv(PayOrder(env, s, x, ids, now).shop)
  {
    hide PayOrder, LL.Inv, LedgerKeys, CreditKeys, FactsOf;
    PaymentActivates(env, s, x, ids, now);
    assert Sound(FactsOf(s, x.order));
    UnpaidBefore(s, x.order);
    forall id ensures Sound(FactsOf(PayOrder(env, s, x, ids, now).shop, id)) {
      assert Sound(FactsOf(s, id));
      PaymentFacts(env, s, x, ids, now, id);
      if id == x.order {
        SettledByPayment(FactsOf(s, id), x, s.orders[id], ids.transaction, PaymentEvent(s, x, ids, now));
      }
    }
    PaymentFacts(env, s, x, ids, now, x.order);
  }

  lemma UnpaidBefore(s: Shop, id: Id)
    requires Inv(s) && id in s.orders
      && (s.orders[id].status == PendingEvidence || s.orders[id].status == PendingReview)
    ensures Payable(s, id) && FactsOf(s, id).order == Some(s.orders[id])
  {
    hide LL.Inv, LedgerKeys, CreditKeys;
    assert Sound(FactsOf(s, id));
  }

  lemma JudgeKeeps(env: Env, s: Shop, x: DecideInput, ids: NewIds, now: int)
    requires Inv(s) && x.order in s.orders && Judge(env, s, x, s.orders[x.order], ids, now).Ok?
    ensures Inv(Judge(env, s, x, s.orders[x.order], ids, now).shop)
  {
    if x.approve {
      ApproveKeeps(env, s, x, ids, now);
    } else {
      RejectKeeps(s, x);
    }
  }

  /** Tables that no fact speaks of may change at will. */
  lemma SameFacts(s: Shop, after: Shop)
    requires Inv(s)
    requires after.orders == s.orders && after.evidence == s.evidence && after.decisions == s.decisions
    requires after.events == s.events && after.ledger == s.ledger && after.credits == s.credits
    ensures Inv(after)
  {
    forall id ensures Sound(FactsOf(after, id)) {
      assert FactsOf(after, id) == FactsOf(s, id);
    }
  }

  lemma ForeignPostCharges(h: L.Hasher, b: L.Books, c: L.Command, id: Id)
    requires LL.RowsSound(b) && ForeignPost(c.input)
    ensures var after := L.Next(h, b, c);
      ChargesOf(after.transactions, after.rows, id) == ChargesOf(b.transactions, b.rows, id)
  {
    LL.NextShape(h, b, c);
    if LL.Creates(h, b, c) {
      WrittenCharges(b, L.TransactionOf(h, c.input, c.newTx, true), c.input, id);
    }
  }

  lemma ForeignPostKeys(h: L.Hasher, b: L.Books, c: L.Command)
    requires LedgerKeys(b.transactions) && ForeignPost(c.input)
    ensures LedgerKeys(L.Next(h, b, c).transactions)
  {
    LL.NextShape(h, b, c);
  }

  lemma PostKeeps(env: Env, s: Shop, c: L.Command)
    requires Inv(s) && ForeignPost(c.input)
    ensures Inv(s.(ledger := L.Next(env.ledgerHash, s.ledger, c)))
  {
    var after := s.(ledger := L.Next(env.ledgerHash, s.ledger, c));
    LL.NextKeepsInv(env.ledgerHash, s.ledger, c);
    ForeignPostKeys(env.ledgerHash, s.ledger, c);
    forall id ensures Sound(FactsOf(after, id)) {
      ForeignPostCharges(env.ledgerHash, s.ledger, c, id);
      assert FactsOf(after, id) == FactsOf(s, id);
      assert Sound(FactsOf(s, id));
    }
  }

  lemma CreditKeeps(s: Shop, credits: C.Book)
    requires Inv(s) && ForeignCredit(s.credits.ledger, credits.ledger)
    ensures Inv(s.(credits := credits))
  {
    var after := s.(credits := credits);
    forall id ensures Sound(FactsOf(after, id)) {
      assert Sound(FactsOf(s, id));
      ForeignGrants(s.credits.ledger, credits.ledger, id);
      assert FactsOf(after, id) == FactsOf(s, id);
    }
    forall i | 0 <= i < |credits.ledger|
      ensures var m := credits.ledger[i].mutation;
        m.sourceType == ORDER || "membership-credit:" <= m.key ==>
          m.sourceType == ORDER && m.key == CreditKey(m.sourceId)
    {
      if i >= |s.credits.ledger| {
        assert ForeignEntry(credits.ledger[i]);
      } else {
        assert credits.ledger[i] == s.credits.ledger[i];
      }
    }
  }

  lemma AcceptKeeps(env: Env, s: Shop, x: AcceptInput, now: int)
    requires Inv(s) && AcceptDocuments(env, s, x, now).Ok?
    ensures Inv(AcceptDocuments(env, s, x, now).shop)
  {
    if D.ConsentComplete(env.digests, s.board, x.user, now) {
      SameFacts(s, s.(memberships := ActivateTrial(s.memberships, x.user, now).value));
    } else {
      var work := RecordConsent(env, s, x, now);
      if work.Ok? {
        SameFacts(s, work.shop);
      }
      ClaimedKeeps(s, AcceptDescriptor(env, x), work);
    }
  }

  lemma CreateStepKeeps(env: Env, s: Shop, x: CreateInput, newId: Id, now: int)
    requires Inv(s) && CreateOrder(env, s, x, newId, now).Ok?
    ensures Inv(CreateOrder(env, s, x, newId, now).shop)
  {
    var work := NewOrder(env, s, x, newId, now);
    if work.Ok? {
      CreateKeeps(env, s, x, newId, now);
    }
    ClaimedKeeps(s, CreateDescriptor(env, x), work);
  }

  lemma EvidenceStepKeeps(env: Env, s: Shop, x: EvidenceInput, newId: Id, now: int)
    requires Inv(s) && RecordEvidence(env, s, x, newId, now).Ok?
    ensures Inv(RecordEvidence(env, s, x, newId, now).shop)
  {
    var order, row := s.orders[x.order], EvidenceRow(env, x);
    var work := KeepEvidence(s, row, order, newId);
    if work.Ok? {
      EvidenceKeeps(s, x.order, row, newId);
    }
    ClaimedKeeps(s, EvidenceDescriptor(env, x, order.user), work);
  }

  lemma SubmitStepKeeps(env: Env, s: Shop, x: SubmitInput)
    requires Inv(s) && SubmitOrder(env, s, x).Ok?
    ensures Inv(SubmitOrder(env, s, x).shop)
  {
    var order := s.orders[x.order];
    var work := MarkSubmitted(s, x, order);
    if work.Ok? {
      SubmitKeeps(s, x);
    }
    ClaimedKeeps(s, SubmitDescriptor(env, x, order.user), work);
  }

  lemma DecideStepKeeps(env: Env, s: Shop, x: DecideInput, ids: NewIds, now: int)
    requires Inv(s) && DecideOrder(env, s, x, ids, now).Ok?
    ensures Inv(DecideOrder(env, s, x, ids, now).shop)
  {
    var order := s.orders[x.order];
    var work := Judge(env, s, x, order, ids, now);
    if work.Ok? {
      JudgeKeeps(env, s, x, ids, now);
    }
    ClaimedKeeps(s, DecideDescriptor(env, x, order), work);
  }

  lemma CreditStepKeeps(env: Env, s: Shop, c: C.Step)
    requires Inv(s)
    ensures Inv(Next(env, s, CreditStep(c)))
  {
    hide C.Next, D.Next, L.Next, Exec, Inv;
    var credits := C.Next(s.credits, c);
    if ForeignCredit(s.credits.ledger, credits.ledger) {
      CreditKeeps(s, credits);
    }
  }

  lemma LedgerStepKeeps(env: Env, s: Shop, c: L.Command)
    requires Inv(s)
    ensures Inv(Next(env, s, LedgerStep(c)))
  {
    hide C.Next, D.Next, L.Next, Exec, Inv;
    if ForeignPost(c.input) {
      PostKeeps(env, s, c);
    }
  }

  lemma LifecycleStepKeeps(env: Env, s: Shop, i: nat, status: MembershipStatus)
    requires Inv(s)
    ensures Inv(Next(env, s, LifecycleStep(i, status)))
  {
    hide Exec, Sound, LedgerKeys, CreditKeys, LL.Inv, C.Next, D.Next, L.Next;
    SameFacts(s, Next(env, s, LifecycleStep(i, status)));
  }

  lemma ForeignStepKeeps(env: Env, s: Shop, step: Step)
    requires Inv(s) && IsForeign(step)
    ensures Inv(Next(env, s, step))
  {
    hide Exec, C.Next, L.Next, D.Next, Sound, LedgerKeys, CreditKeys, LL.Inv;
    match step
    case DisclosureStep(d) => SameFacts(s, s.(board := D.Next(env.digests, s.board, d)));
    case LedgerStep(c) => LedgerStepKeeps(env, s, c);
    case CreditStep(c) => CreditStepKeeps(env, s, c);
    case LifecycleStep(i, status) => LifecycleStepKeeps(env, s, i, status);
  }

  lemma NextKeepsInv(env: Env, s: Shop, step: Step)
    requires Inv(s)
    ensures Inv(Next(env, s, step))
  {
    hide Inv, CreateOrder, RecordEvidence, SubmitOrder, DecideOrder, PayOrder, AcceptDocuments, C.Next, D.Next, L.Next;
    if IsForeign(step) {
      ForeignStepKeeps(env, s, step);
    } else if Exec(env, s, step).Ok? {
      match step
      case CreateStep(x, newId, now) => CreateStepKeeps(env, s, x, newId, now);
      case EvidenceStep(x, newId, now) => EvidenceStepKeeps(env, s, x, newId, now);
      case SubmitStep(x) => SubmitStepKeeps(env, s, x);
      case DecideStep(x, ids, now) => DecideStepKeeps(env, s, x, ids, now);
      case PayStep(x, ids, now) => PaymentKeeps(env, s, x, ids, now);
      case AcceptStep(x, now) => AcceptKeeps(env, s, x, now);
    }
  }

  /**
   * Over every run of orders, evidence, submissions, decisions and payments, with any retries and any keys, and with
   * other services posting, granting and publishing in between: each order's books are as its status says.
   */
  lemma {:induction false} RunKeepsInv(env: Env, s: Shop, steps: seq<Step>)
    requires Inv(s)
    ensures Inv(Run(env, s, steps))
    decreases |steps|
  {
    hide Next, Inv;
    if steps != [] {
      NextKeepsInv(env, s, steps[0]);
      RunKeepsInv(env, Next(env, s, steps[0]), steps[1..]);
    }
  }
}
