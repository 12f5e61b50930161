/** The service, changing its tables step by step as the SQL statements do. */
module LedgerService {
  import opened Common
  import opened Decimal
  import opened Ledger

  class CommercialLedger {
    const hash: Hasher
    var accounts: map<Id, Account>
    var transactions: seq<Transaction>
    var rows: seq<Row>
    var wallets: map<WalletKey, Wallet>
    var versions: seq<Version>

    constructor (hash: Hasher, accounts: map<Id, Account>)
      ensures this.hash == hash && State() == Books(accounts, [], [], map[], [])
    {
      this.hash := hash;
      this.accounts := accounts;
      transactions, rows, wallets, versions := [], [], map[], [];
    }

    function State(): Books
      reads this
    {
      Books(accounts, transactions, rows, wallets, versions)
    }

    method AssertBalancedPostings(postings: seq<Posting>) returns (error: Option<Error>)
      ensures error == CheckPostings(postings)
    {
      hide ParseUnits;
      if |postings| < 2 {
        return Some(RequiresMultiplePostings);
      }
      var debit, credit := 0, 0;
      for i := 0 to |postings|
        invariant debit == Total(postings[..i], Debit) && credit == Total(postings[..i], Credit)
        invariant FirstBad(postings[..i]).None?
      {
        assert postings[..i + 1][..i] == postings[..i];
        var amount := ParseUnits(postings[i].amount);
        if amount.None? {
          FirstBadStays(postings, i + 1);
          return Some(AmountInvalid);
        }
        if amount.value == 0 {
          FirstBadStays(postings, i + 1);
          return Some(AmountNotPositive);
        }
        if postings[i].side.Debit? {
          debit := debit + amount.value;
        } else {
          credit := credit + amount.value;
        }
      }
      assert postings[..|postings|] == postings;
      if debit != credit {
        return Some(NotBalanced);
      }
      return None;
    }

    method EnsurePlatformAccount(accountType: string, currency: string) returns (ok: bool)
      modifies `accounts
      ensures match EnsurePlatform(old(State()), accountType, currency)
        case None => !ok && State() == old(State())
        case Some(books) => ok && State() == books
    {
      var id := PlatformId(accountType, currency);
      if id !in accounts {
        accounts := accounts[id := Account(accountType, currency, true, Platform)];
      }
      ok := IsAccountOf(accounts[id], Platform, accountType, currency);
    }

    method EnsureUserAvailableAccount(user: Id, currency: string) returns (ok: bool)
      modifies `accounts
      ensures match EnsureUser(old(State()), user, currency)
        case None => !ok && State() == old(State())
        case Some(books) => ok && State() == books
    {
      var id := UserId(user, currency);
      if id !in accounts {
        accounts := accounts[id := Account(USER_AVAILABLE, currency, true, User(user))];
      }
      ok := IsAccountOf(accounts[id], User(user), USER_AVAILABLE, currency);
    }

    method Rollback(saved: Books)
      modifies this
      ensures State() == saved
    {
      accounts, transactions, rows, wallets, versions :=
        saved.accounts, saved.transactions, saved.rows, saved.wallets, saved.versions;
    }

    method WriteRows(tx: Id, currency: string, postings: seq<Posting>)
      modifies `rows
      ensures rows == old(rows) + RowsOf(tx, currency, postings)
    {
      for i := 0 to |postings|
        invariant rows == old(rows) + RowsOf(tx, currency, postings[..i])
      {
        assert postings[..i + 1][..i] == postings[..i];
        var p := postings[i];
        rows := rows + [Row(tx, p.account, p.side, Units(p), currency)];
      }
      assert postings[..|postings|] == postings;
    }

    /** One attempt to move a wallet; a failure leaves the wallets as they were. */
    method UpdateWallet(key: WalletKey, d: (int, int), tx: Id, newWallet: Id) returns (r: Response)
      modifies `wallets, `versions
      ensures Performs(old(State()), State(), r, MoveWallet(old(State()), key, d, tx, newWallet))
    {
      if key !in wallets && HasWallet(wallets, newWallet) {
        return Failure(ConstraintViolation);
      }
      var w := WalletOf(wallets, key, newWallet);
      if w.available + d.0 < 0 || w.frozen + d.1 < 0 {
        return Failure(WalletInsufficient);
      }
      w := Wallet(w.id, w.available + d.0, w.frozen + d.1, w.version + 1);
      wallets := wallets[key := w];
      versions := versions + [Version(w.id, tx, w.available, w.frozen, w.version)];
      return Success(tx, true);
    }

    method PostTransaction(input: Input, newTx: Id, newWallet: Id) returns (r: Response)
      modifies this
      ensures Performs(old(State()), State(), r, Post(hash, old(State()), input, newTx, newWallet))
    {
      var error := AssertBalancedPostings(input.postings);
      if error.Some? {
        return Failure(error.value);
      }
      if input.wallet.Some? && Deltas(input.wallet.value).None? {
        return Failure(AmountInvalid);
      }
      var existing := TransactionByKey(transactions, input.key);
      if existing.Some? {
        if !SameContext(existing.value, TransactionOf(hash, input, existing.value.id, true)) {
          return Failure(KeyCollision);
        }
        return Success(existing.value.id, false);
      }
      if !AccountsValid(accounts, input) {
        return Failure(AccountInvalid);
      }
      var t := TransactionOf(hash, input, newTx, false);
      if !Insertable(transactions, t.(posted := true)) {
        return Failure(ConstraintViolation);
      }
      var saved := State();
      transactions := transactions + [t];
      WriteRows(newTx, input.currency, input.postings);
      transactions := saved.transactions + [t.(posted := true)];
      if input.wallet.Some? {
        var w := input.wallet.value;
        r := UpdateWallet(WalletKey(w.user, input.currency), Deltas(w).value, newTx, newWallet);
        if r.Failure? {
          Rollback(saved);
        }
        return;
      }
      return Success(newTx, true);
    }
  }

  lemma {:induction false} FirstBadStays(postings: seq<Posting>, n: nat)
    requires n <= |postings| && FirstBad(postings[..n]).Some?
    ensures FirstBad(postings) == FirstBad(postings[..n])
    decreases |postings| - n
  {
    if n == |postings| {
      assert postings[..n] == postings;
    } else {
      assert postings[..n + 1][..n] == postings[..n];
      FirstBadStays(postings, n + 1);
    }
  }
}
