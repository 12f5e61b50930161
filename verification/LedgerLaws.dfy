/** What every run of ledger posts keeps, and what a repeated post does. */
module LedgerLaws {
  import opened Common
  import opened Decimal
  import opened Ledger

  // ----- Sums over the rows -----

  function Sum(rows: seq<Row>, tx: Id, side: Side): nat {
    if rows == [] then 0
    else
      var n := |rows| - 1;
      Sum(rows[..n], tx, side) + if rows[n].tx == tx && rows[n].side == side then rows[n].amount else 0
  }

  function CountOf(rows: seq<Row>, tx: Id): nat {
    if rows == [] then 0
    else
      var n := |rows| - 1;
      CountOf(rows[..n], tx) + if rows[n].tx == tx then 1 else 0
  }

  function CurrencySum(rows: seq<Row>, currency: string, side: Side): nat {
    if rows == [] then 0
    else
      var n := |rows| - 1;
      CurrencySum(rows[..n], currency, side)
      + if rows[n].currency == currency && rows[n].side == side then rows[n].amount else 0
  }

  lemma {:induction false} SumsAppend(a: seq<Row>, b: seq<Row>, tx: Id, currency: string, side: Side)
    ensures Sum(a + b, tx, side) == Sum(a, tx, side) + Sum(b, tx, side)
    ensures CountOf(a + b, tx) == CountOf(a, tx) + CountOf(b, tx)
    ensures CurrencySum(a + b, currency, side) == CurrencySum(a, currency, side) + CurrencySum(b, currency, side)
  {
    if b == [] {
      assert a + b == a;
    } else {
      var n := |b| - 1;
      assert (a + b)[..|a + b| - 1] == a + b[..n];
      SumsAppend(a, b[..n], tx, currency, side);
    }
  }

  lemma {:induction false} RowsSums(tx: Id, currency: string, postings: seq<Posting>, other: Id, unit: string,
                                    side: Side)
    ensures Sum(RowsOf(tx, currency, postings), other, side) == if other == tx then Total(postings, side) else 0
    ensures CountOf(RowsOf(tx, currency, postings), other) == if other == tx then |postings| else 0
    ensures CurrencySum(RowsOf(tx, currency, postings), unit, side) ==
      if unit == currency then Total(postings, side) else 0
  {
    if postings != [] {
      var n := |postings| - 1;
      RowsSums(tx, currency, postings[..n], other, unit, side);
      var rows := RowsOf(tx, currency, postings);
      assert rows[..|rows| - 1] == RowsOf(tx, currency, postings[..n]);
    }
  }

  lemma {:induction false} RowsAre(tx: Id, currency: string, postings: seq<Posting>)
    ensures forall i :: 0 <= i < |postings| ==>
      var p := postings[i];
      RowsOf(tx, currency, postings)[i] == Row(tx, p.account, p.side, Units(p), currency)
  {
    if postings != [] {
      RowsAre(tx, currency, postings[..|postings| - 1]);
    }
  }

  /** A checked request has positive amounts, so a positive total on at least one side. */
  lemma {:induction false} CheckedAmounts(postings: seq<Posting>)
    requires FirstBad(postings).None?
    ensures forall i :: 0 <= i < |postings| ==> Units(postings[i]) > 0
    ensures postings != [] ==> Total(postings, Debit) + Total(postings, Credit) > 0
  {
    if postings != [] {
      var front, last := postings[..|postings| - 1], postings[|postings| - 1];
      CheckedAmounts(front);
      assert Units(last) > 0;
      assert forall i :: 0 <= i < |front| ==> postings[i] == front[i];
    }
  }

  // ----- The invariant -----

  /** The deferred constraint trigger of the postings table. */
  predicate PassesTrigger(b: Books, t: Transaction) {
    && CountOf(b.rows, t.id) >= 2
    && Sum(b.rows, t.id, Debit) == Sum(b.rows, t.id, Credit) > 0
  }

  predicate TransactionsSound(b: Books) {
    forall i :: 0 <= i < |b.transactions| ==> b.transactions[i].posted && PassesTrigger(b, b.transactions[i])
  }

  ghost predicate CurrenciesBalance(b: Books) {
    forall c :: CurrencySum(b.rows, c, Debit) == CurrencySum(b.rows, c, Credit)
  }

  predicate Unique(transactions: seq<Transaction>) {
    forall i, j :: 0 <= i < j < |transactions| ==> !Clash(transactions[i], transactions[j])
  }

  predicate InTransaction(transactions: seq<Transaction>, r: Row) {
    exists i :: 0 <= i < |transactions| && transactions[i].id == r.tx && transactions[i].currency == r.currency
  }

  /** A row belongs to a transaction and an account of its own currency. */
  predicate RowSound(b: Books, r: Row) {
    && r.amount > 0 && InTransaction(b.transactions, r)
    && r.account in b.accounts && b.accounts[r.account].currency == r.currency
  }

  predicate RowsSound(b: Books) {
    forall i :: 0 <= i < |b.rows| ==> RowSound(b, b.rows[i])
  }

  /** The newest version row of a wallet. */
  function LastVersion(versions: seq<Version>, wallet: Id): Option<Version> {
    if versions == [] then None
    else
      var n := |versions| - 1;
      if versions[n].wallet == wallet then Some(versions[n]) else LastVersion(versions[..n], wallet)
  }

  predicate WalletSound(versions: seq<Version>, w: Wallet) {
    && w.available >= 0 && w.frozen >= 0
    && match LastVersion(versions, w.id) {
      case None => false
      case Some(v) => v.available == w.available && v.frozen == w.frozen && v.version == w.version
    }
  }

  predicate WalletsSound(b: Books) {
    && (forall k :: k in b.wallets ==> WalletSound(b.versions, b.wallets[k]))
    && (forall k, l :: k in b.wallets && l in b.wallets && k != l ==> b.wallets[k].id != b.wallets[l].id)
  }

  predicate VersionsOwned(b: Books) {
    forall i :: 0 <= i < |b.versions| ==> HasWallet(b.wallets, b.versions[i].wallet)
  }

  predicate VersionsIncrease(versions: seq<Version>) {
    forall i, j :: 0 <= i < j < |versions| && versions[i].wallet == versions[j].wallet ==>
      versions[i].version < versions[j].version
  }

  ghost predicate Inv(b: Books) {
    && TransactionsSound(b) && CurrenciesBalance(b) && Unique(b.transactions) && RowsSound(b)
    && WalletsSound(b) && VersionsOwned(b) && VersionsIncrease(b.versions)
  }

  // ----- Writing a transaction -----

  function Written(b: Books, t: Transaction, input: Input): Books {
    b.(transactions := b.transactions + [t], rows := b.rows + RowsOf(t.id, input.currency, input.postings))
  }

  lemma {:induction false} NoRowsYet(rows: seq<Row>, tx: Id, side: Side)
    requires forall i :: 0 <= i < |rows| ==> rows[i].tx != tx
    ensures Sum(rows, tx, side) == 0 && CountOf(rows, tx) == 0
  {
    if rows != [] {
      NoRowsYet(rows[..|rows| - 1], tx, side);
    }
  }

  lemma WriteKeepsTransactions(b: Books, t: Transaction, input: Input)
    requires TransactionsSound(b) && RowsSound(b) && Insertable(b.transactions, t)
    requires CheckPostings(input.postings).None? && t.posted
    ensures TransactionsSound(Written(b, t, input))
  {
    hide RowsOf, Sum, CountOf, Total, CurrencySum;
    var after := Written(b, t, input);
    var added := RowsOf(t.id, input.currency, input.postings);
    forall i | 0 <= i < |after.transactions| ensures PassesTrigger(after, after.transactions[i]) {
      var u := after.transactions[i];
      SumsAppend(b.rows, added, u.id, "", Debit);
      SumsAppend(b.rows, added, u.id, "", Credit);
      RowsSums(t.id, input.currency, input.postings, u.id, "", Debit);
      RowsSums(t.id, input.currency, input.postings, u.id, "", Credit);
      if i == |b.transactions| {
        forall k | 0 <= k < |b.rows| ensures b.rows[k].tx != t.id {
          assert RowSound(b, b.rows[k]);
        }
        NoRowsYet(b.rows, t.id, Debit);
        NoRowsYet(b.rows, t.id, Credit);
        CheckedAmounts(input.postings);
      } else {
        assert u == b.transactions[i] && !Clash(u, t);
      }
    }
  }

  lemma WriteKeepsCurrencies(b: Books, t: Transaction, input: Input)
    requires CurrenciesBalance(b) && CheckPostings(input.postings).None?
    ensures CurrenciesBalance(Written(b, t, input))
  {
    var added := RowsOf(t.id, input.currency, input.postings);
    forall c ensures CurrencySum(b.rows + added, c, Debit) == CurrencySum(b.rows + added, c, Credit) {
      SumsAppend(b.rows, added, "", c, Debit);
      SumsAppend(b.rows, added, "", c, Credit);
      RowsSums(t.id, input.currency, input.postings, "", c, Debit);
      RowsSums(t.id, input.currency, input.postings, "", c, Credit);
    }
  }

  lemma WriteKeepsRows(b: Books, t: Transaction, input: Input)
    requires RowsSound(b) && AccountsValid(b.accounts, input) && CheckPostings(input.postings).None?
    requires t.currency == input.currency
    ensures RowsSound(Written(b, t, input))
  {
    var after := Written(b, t, input);
    RowsAre(t.id, input.currency, input.postings);
    CheckedAmounts(input.postings);
    forall i | 0 <= i < |after.rows| ensures RowSound(after, after.rows[i]) {
      if i < |b.rows| {
        assert RowSound(b, b.rows[i]);
        var k :| 0 <= k < |b.transactions| && b.transactions[k].id == b.rows[i].tx
          && b.transactions[k].currency == b.rows[i].currency;
        assert after.transactions[k] == b.transactions[k];
      } else {
        assert after.transactions[|b.transactions|] == t;
      }
    }
  }

  // ----- Moving a wallet -----

  lemma {:induction false} LastVersionMember(versions: seq<Version>, wallet: Id)
    ensures LastVersion(versions, wallet).None? ==> forall i :: 0 <= i < |versions| ==> versions[i].wallet != wallet
    ensures LastVersion(versions, wallet).Some? && VersionsIncrease(versions) ==>
      forall i :: 0 <= i < |versions| && versions[i].wallet == wallet ==>
        versions[i].version <= LastVersion(versions, wallet).value.version
  {
    if versions != [] && versions[|versions| - 1].wallet != wallet {
      LastVersionMember(versions[..|versions| - 1], wallet);
    }
  }

  lemma LastVersionAppend(versions: seq<Version>, v: Version, wallet: Id)
    ensures LastVersion(versions + [v], wallet) == if v.wallet == wallet then Some(v) else LastVersion(versions, wallet)
  {
    assert (versions + [v])[..|versions|] == versions;
  }

  lemma MoveKeepsWallets(b: Books, key: WalletKey, d: (int, int), tx: Id, newWallet: Id)
    requires WalletsSound(b) && MoveWallet(b, key, d, tx, newWallet).Ok?
    ensures WalletsSound(MoveWallet(b, key, d, tx, newWallet).books)
  {
    var after := MoveWallet(b, key, d, tx, newWallet).books;
    var v := after.versions[|b.versions|];
    forall k | k in after.wallets ensures WalletSound(after.versions, after.wallets[k]) {
      LastVersionAppend(b.versions, v, after.wallets[k].id);
    }
  }

  lemma MoveKeepsVersions(b: Books, key: WalletKey, d: (int, int), tx: Id, newWallet: Id)
    requires WalletsSound(b) && VersionsOwned(b) && VersionsIncrease(b.versions)
    requires MoveWallet(b, key, d, tx, newWallet).Ok?
    ensures VersionsOwned(MoveWallet(b, key, d, tx, newWallet).books)
    ensures VersionsIncrease(MoveWallet(b, key, d, tx, newWallet).books.versions)
  {
    var after := MoveWallet(b, key, d, tx, newWallet).books;
    forall i | 0 <= i < |after.versions| ensures HasWallet(after.wallets, after.versions[i].wallet) {
      if i < |b.versions| {
        assert HasWallet(b.wallets, b.versions[i].wallet);
        var k :| k in b.wallets && b.wallets[k].id == b.versions[i].wallet;
        assert k in after.wallets && after.wallets[k].id == b.versions[i].wallet;
      } else {
        assert key in after.wallets;
      }
    }
    var w := WalletOf(b.wallets, key, newWallet);
    LastVersionMember(b.versions, w.id);
    forall i | 0 <= i < |b.versions| && b.versions[i].wallet == w.id
      ensures b.versions[i].version < after.versions[|b.versions|].version
    {
      assert HasWallet(b.wallets, b.versions[i].wallet);
      assert key in b.wallets;
    }
  }

  // ----- Every run -----

  predicate Creates(h: Hasher, b: Books, c: Command) {
    Post(h, b, c.input, c.newTx, c.newWallet).Ok? && Post(h, b, c.input, c.newTx, c.newWallet).created
  }

  /** The books with the new transaction and rows, before the wallet moves. */
  function Drafted(h: Hasher, b: Books, c: Command): Books {
    Written(b, TransactionOf(h, c.input, c.newTx, true), c.input)
  }

  lemma NextShape(h: Hasher, b: Books, c: Command)
    ensures !Creates(h, b, c) ==> Next(h, b, c) == b
    ensures Creates(h, b, c) ==>
      && CheckPostings(c.input.postings).None? && AccountsValid(b.accounts, c.input)
      && Insertable(b.transactions, TransactionOf(h, c.input, c.newTx, true))
      && TransactionByKey(b.transactions, c.input.key).None?
      && match c.input.wallet {
        case None => Next(h, b, c) == Drafted(h, b, c)
        case Some(w) =>
          && Deltas(w).Some?
          && var o := MoveWallet(Drafted(h, b, c), WalletKey(w.user, c.input.currency), Deltas(w).value, c.newTx,
                                 c.newWallet);
             o.Ok? && Next(h, b, c) == o.books
      }
  {
  }

  lemma NextKeepsInv(h: Hasher, b: Books, c: Command)
    requires Inv(b)
    ensures Inv(Next(h, b, c))
  {
    NextShape(h, b, c);
    if Creates(h, b, c) {
      var t := TransactionOf(h, c.input, c.newTx, true);
      var drafted := Drafted(h, b, c);
      WriteKeepsTransactions(b, t, c.input);
      WriteKeepsCurrencies(b, t, c.input);
      WriteKeepsRows(b, t, c.input);
      assert Unique(drafted.transactions);
      assert WalletsSound(drafted) && VersionsOwned(drafted) && VersionsIncrease(drafted.versions);
      if c.input.wallet.Some? {
        var w := c.input.wallet.value;
        var key := WalletKey(w.user, c.input.currency);
        MoveKeepsWallets(drafted, key, Deltas(w).value, c.newTx, c.newWallet);
        MoveKeepsVersions(drafted, key, Deltas(w).value, c.newTx, c.newWallet);
      }
      MovedTablesSame(drafted, Next(h, b, c));
    }
  }

  /** The parts of the invariant that do not speak of wallets. */
  lemma MovedTablesSame(b: Books, after: Books)
    requires after.transactions == b.transactions && after.rows == b.rows && after.accounts == b.accounts
    requires TransactionsSound(b) && CurrenciesBalance(b) && Unique(b.transactions) && RowsSound(b)
    ensures TransactionsSound(after) && CurrenciesBalance(after) && Unique(after.transactions) && RowsSound(after)
  {
    forall i | 0 <= i < |after.transactions| ensures PassesTrigger(after, after.transactions[i]) {
      assert PassesTrigger(b, b.transactions[i]);
    }
    forall i | 0 <= i < |after.rows| ensures RowSound(after, after.rows[i]) {
      assert RowSound(b, b.rows[i]);
    }
  }

  /**
   * After any run of posts: debits equal credits per transaction and per currency, every transaction is
   * posted and passes the database's own check, keys and sources are unique, wallets are not negative,
   * and each wallet's newest version is the wallet itself, versions strictly increasing.
   */
  lemma {:induction false} RunKeepsInv(h: Hasher, b: Books, commands: seq<Command>)
    requires Inv(b)
    ensures Inv(Run(h, b, commands))
    decreases |commands|
  {
    if commands != [] {
      NextKeepsInv(h, b, commands[0]);
      RunKeepsInv(h, Next(h, b, commands[0]), commands[1..]);
    }
  }

  lemma FromEmpty(h: Hasher, accounts: map<Id, Account>, commands: seq<Command>)
    ensures Inv(Run(h, EMPTY_BOOKS.(accounts := accounts), commands))
  {
    RunKeepsInv(h, EMPTY_BOOKS.(accounts := accounts), commands);
  }

  /** Opening an account disturbs nothing, and finds the account already there. */
  lemma EnsureKeepsInv(b: Books, id: Id, owner: Owner, accountType: string, currency: string)
    requires Inv(b) && Ensure(b, id, owner, accountType, currency).Some?
    ensures Inv(Ensure(b, id, owner, accountType, currency).value)
    ensures Ensure(Ensure(b, id, owner, accountType, currency).value, id, owner, accountType, currency)
      == Ensure(b, id, owner, accountType, currency)
  {
    var after := Ensure(b, id, owner, accountType, currency).value;
    forall i | 0 <= i < |after.transactions| ensures PassesTrigger(after, after.transactions[i]) {
      assert PassesTrigger(b, b.transactions[i]);
    }
    forall i | 0 <= i < |after.rows| ensures RowSound(after, after.rows[i]) {
      assert RowSound(b, b.rows[i]);
    }
  }

  // ----- What a wallet holds -----

  /** What a wallet holds; nothing before its first movement. */
  function Holding(b: Books, key: WalletKey): (int, int) {
    if key in b.wallets then (b.wallets[key].available, b.wallets[key].frozen) else (0, 0)
  }

  /** The movement a command causes: nothing when it is refused or a replay. */
  function Movement(h: Hasher, b: Books, c: Command, key: WalletKey): (int, int) {
    if Creates(h, b, c) && c.input.wallet.Some? && WalletKey(c.input.wallet.value.user, c.input.currency) == key
       && Deltas(c.input.wallet.value).Some?
    then Deltas(c.input.wallet.value).value
    else (0, 0)
  }

  function Movements(h: Hasher, b: Books, commands: seq<Command>, key: WalletKey): (int, int)
    decreases |commands|
  {
    if commands == [] then (0, 0)
    else
      var first := Movement(h, b, commands[0], key);
      var rest := Movements(h, Next(h, b, commands[0]), commands[1..], key);
      (first.0 + rest.0, first.1 + rest.1)
  }

  lemma NextHolding(h: Hasher, b: Books, c: Command, key: WalletKey)
    ensures Holding(Next(h, b, c), key).0 == Holding(b, key).0 + Movement(h, b, c, key).0
    ensures Holding(Next(h, b, c), key).1 == Holding(b, key).1 + Movement(h, b, c, key).1
  {
    NextShape(h, b, c);
  }

  /** A wallet holds the sum of the movements of the posts that were carried out, and never less than nothing. */
  lemma {:induction false} WalletIsSumOfMovements(h: Hasher, b: Books, commands: seq<Command>, key: WalletKey)
    requires Inv(b)
    ensures var held, moved := Holding(Run(h, b, commands), key), Movements(h, b, commands, key);
      && held.0 == Holding(b, key).0 + moved.0 && held.1 == Holding(b, key).1 + moved.1
      && held.0 >= 0 && held.1 >= 0
    decreases |commands|
  {
    if commands != [] {
      NextHolding(h, b, commands[0], key);
      NextKeepsInv(h, b, commands[0]);
      WalletIsSumOfMovements(h, Next(h, b, commands[0]), commands[1..], key);
    }
  }

  // ----- Retries -----

  lemma {:induction false} KeyStays(a: seq<Transaction>, b: seq<Transaction>, key: string)
    requires a <= b && TransactionByKey(a, key).Some?
    ensures TransactionByKey(b, key) == TransactionByKey(a, key)
    decreases |b|
  {
    if |a| < |b| {
      KeyStays(a, b[..|b| - 1], key);
    } else {
      assert a == b;
    }
  }

  lemma KeyAppend(a: seq<Transaction>, t: Transaction)
    requires TransactionByKey(a, t.key).None?
    ensures TransactionByKey(a + [t], t.key) == Some(t)
  {
    assert (a + [t])[..|a|] == a;
  }

  lemma {:induction false} RunExtends(h: Hasher, b: Books, commands: seq<Command>)
    ensures b.transactions <= Run(h, b, commands).transactions
    ensures b.rows <= Run(h, b, commands).rows
    decreases |commands|
  {
    if commands != [] {
      NextShape(h, b, commands[0]);
      RunExtends(h, Next(h, b, commands[0]), commands[1..]);
    }
  }

  /** The same request, up to the order of its postings, the spelling of its amounts, and its request id. */
  predicate SameRequest(a: Input, b: Input) {
    && a.kind == b.kind && a.sourceType == b.sourceType && a.sourceId == b.sourceId && a.currency == b.currency
    && a.key == b.key && a.actor == b.actor && PayloadOf(a) == PayloadOf(b)
  }

  predicate Readable(input: Input) {
    CheckPostings(input.postings).None? && (input.wallet.Some? ==> Deltas(input.wallet.value).Some?)
  }

  /** However much later it comes, a repeated request finds the first transaction and changes nothing. */
  lemma ReplayFindsFirst(h: Hasher, b: Books, c: Command, between: seq<Command>, again: Command)
    requires Creates(h, b, c) && SameRequest(c.input, again.input) && Readable(again.input)
    ensures var later := Run(h, Next(h, b, c), between);
      Post(h, later, again.input, again.newTx, again.newWallet) == Ok(later, c.newTx, false)
  {
    NextShape(h, b, c);
    var t := TransactionOf(h, c.input, c.newTx, true);
    KeyAppend(b.transactions, t);
    var first := Next(h, b, c);
    assert first.transactions == b.transactions + [t];
    RunExtends(h, first, between);
    KeyStays(first.transactions, Run(h, first, between).transactions, c.input.key);
  }

  /** A key reused for anything else is refused, and the books stay as they are. */
  lemma ReusedKeyRefused(h: Hasher, b: Books, c: Command, between: seq<Command>, other: Command)
    requires Creates(h, b, c) && other.input.key == c.input.key && Readable(other.input)
    requires h(PayloadOf(c.input)) == h(PayloadOf(other.input)) ==> PayloadOf(c.input) == PayloadOf(other.input)
    requires !SameRequest(c.input, other.input)
    ensures var later := Run(h, Next(h, b, c), between);
      Post(h, later, other.input, other.newTx, other.newWallet) == Err(KeyCollision) && Next(h, later, other) == later
  {
    NextShape(h, b, c);
    var t := TransactionOf(h, c.input, c.newTx, true);
    KeyAppend(b.transactions, t);
    var first := Next(h, b, c);
    assert first.transactions == b.transactions + [t];
    RunExtends(h, first, between);
    KeyStays(first.transactions, Run(h, first, between).transactions, c.input.key);
  }

  /** Spelling an amount differently does not change the payload. */
  lemma {:induction false} SpellingDoesNotMatter(a: seq<Posting>, b: seq<Posting>)
    requires |a| == |b|
    requires forall i :: 0 <= i < |a| ==>
      && a[i].account == b[i].account && a[i].side == b[i].side
      && ParseUnits(a[i].amount).Some? && ParseUnits(a[i].amount) == ParseUnits(b[i].amount)
    ensures CanonicalPostings(a) == CanonicalPostings(b)
  {
    if a != [] {
      var n := |a| - 1;
      SpellingDoesNotMatter(a[..n], b[..n]);
      NormalFormDecidesAmount(a[n].amount, b[n].amount);
    }
  }
}
