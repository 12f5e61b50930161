/**
 * The double-entry ledger and the wallets it moves.
 *
 * A posting request is one database transaction: a function from the committed books to an outcome,
 * where `Err` means rollback.
 */
module Ledger {
  import opened Common
  import opened Decimal

  // ----- Requests -----

  datatype Side = Debit | Credit

  datatype Posting = Posting(account: Id, side: Side, amount: string)

  datatype Kind = DepositCredit | MembershipPurchase | PerformanceFeePayment | Correction

  datatype WalletMutation = WalletMutation(user: Id, availableDelta: string, frozenDelta: string)

  /** `attachments` is the canonical text of metadata, audit and outbox parts, which only the hash looks at. */
  datatype Input = Input(
    kind: Kind, sourceType: string, sourceId: Id, currency: string, key: string, requestId: string, actor: Id,
    postings: seq<Posting>, reversal: Option<Id>, wallet: Option<WalletMutation>, attachments: string)

  datatype Error =
    | RequiresMultiplePostings
    | AmountInvalid
    | AmountNotPositive
    | NotBalanced
    | KeyCollision
    | AccountInvalid
    | AccountMissing
    | WalletInsufficient
    | ConstraintViolation

  function Units(p: Posting): nat {
    match ParseUnits(p.amount)
    case None => 0
    case Some(units) => units
  }

  function Total(postings: seq<Posting>, side: Side): nat {
    if postings == [] then 0
    else
      var n := |postings| - 1;
      Total(postings[..n], side) + if postings[n].side == side then Units(postings[n]) else 0
  }

  /** What is wrong with the first posting that is wrong. */
  function FirstBad(postings: seq<Posting>): Option<Error> {
    if postings == [] then None
    else
      var n := |postings| - 1;
      match FirstBad(postings[..n])
      case Some(e) => Some(e)
      case None =>
        if ParseUnits(postings[n].amount).None? then Some(AmountInvalid)
        else if Units(postings[n]) == 0 then Some(AmountNotPositive)
        else None
  }

  function CheckPostings(postings: seq<Posting>): Option<Error> {
    if |postings| < 2 then Some(RequiresMultiplePostings)
    else if FirstBad(postings).Some? then FirstBad(postings)
    else if Total(postings, Debit) != Total(postings, Credit) then Some(NotBalanced)
    else None
  }

  // ----- What a key is bound to -----

  datatype CanonicalPosting = CanonicalPosting(account: Id, side: Side, amount: string)

  /** Postings are sorted before hashing, so their order is not part of the payload. */
  datatype Payload = Payload(
    postings: multiset<CanonicalPosting>, reversal: Option<Id>, wallet: Option<WalletMutation>, attachments: string)

  type Hasher = Payload -> string

  function CanonicalPostings(postings: seq<Posting>): multiset<CanonicalPosting> {
    if postings == [] then multiset{}
    else
      var n := |postings| - 1;
      var p := postings[n];
      CanonicalPostings(postings[..n]) + multiset{CanonicalPosting(p.account, p.side, Normalize(p.amount))}
  }

  /** The deltas in units; None when one of them cannot be read. */
  function Deltas(w: WalletMutation): Option<(int, int)> {
    match SignedUnits(w.availableDelta)
    case None => None
    case Some(available) =>
      match SignedUnits(w.frozenDelta)
      case None => None
      case Some(frozen) => Some((available, frozen))
  }

  function NormalizeWallet(w: WalletMutation): WalletMutation {
    match Deltas(w)
    case None => w
    case Some(d) => WalletMutation(w.user, SignedText(d.0), SignedText(d.1))
  }

  function PayloadOf(input: Input): Payload {
    Payload(CanonicalPostings(input.postings), input.reversal,
            match input.wallet { case None => None case Some(w) => Some(NormalizeWallet(w)) }, input.attachments)
  }

  // ----- Tables -----

  datatype Owner = Platform | User(user: Id) | Organization(organization: Id)

  datatype Account = Account(accountType: string, currency: string, active: bool, owner: Owner)

  datatype Transaction = Transaction(
    id: Id, kind: Kind, sourceType: string, sourceId: Id, currency: string, key: string, actor: Id,
    hash: string, reversal: Option<Id>, posted: bool)

  datatype Row = Row(tx: Id, account: Id, side: Side, amount: nat, currency: string)

  datatype WalletKey = WalletKey(user: Id, currency: string)

  datatype Wallet = Wallet(id: Id, available: int, frozen: int, version: int)

  datatype Version = Version(wallet: Id, tx: Id, available: int, frozen: int, version: int)

  datatype Books = Books(
    accounts: map<Id, Account>, transactions: seq<Transaction>, rows: seq<Row>,
    wallets: map<WalletKey, Wallet>, versions: seq<Version>)

  const EMPTY_BOOKS := Books(map[], [], [], map[], [])

  datatype Outcome = Ok(books: Books, id: Id, created: bool) | Err(error: Error)

  function TransactionByKey(transactions: seq<Transaction>, key: string): Option<Transaction> {
    if transactions == [] then None
    else
      var n := |transactions| - 1;
      match TransactionByKey(transactions[..n], key)
      case Some(t) => Some(t)
      case None => if transactions[n].key == key then Some(transactions[n]) else None
  }

  function TransactionOf(h: Hasher, input: Input, id: Id, posted: bool): Transaction {
    Transaction(id, input.kind, input.sourceType, input.sourceId, input.currency, input.key, input.actor,
                h(PayloadOf(input)), input.reversal, posted)
  }

  /** Everything a replay must repeat. */
  predicate SameContext(t: Transaction, u: Transaction) {
    && t.kind == u.kind && t.sourceType == u.sourceType && t.sourceId == u.sourceId
    && t.currency == u.currency && t.actor == u.actor && t.hash == u.hash
  }

  /** The primary key and the unique indexes of the transactions table. */
  predicate Clash(t: Transaction, u: Transaction) {
    || t.id == u.id || t.key == u.key
    || (t.sourceType == u.sourceType && t.sourceId == u.sourceId && t.kind == u.kind && t.currency == u.currency)
    || (t.reversal.Some? && t.reversal == u.reversal)
  }

  predicate HasTransaction(transactions: seq<Transaction>, id: Id) {
    exists i :: 0 <= i < |transactions| && transactions[i].id == id
  }

  predicate Insertable(transactions: seq<Transaction>, t: Transaction) {
    && (forall i :: 0 <= i < |transactions| ==> !Clash(transactions[i], t))
    && (t.reversal.Some? ==> HasTransaction(transactions, t.reversal.value))
  }

  predicate AccountsValid(accounts: map<Id, Account>, input: Input) {
    forall i :: 0 <= i < |input.postings| ==>
      var id := input.postings[i].account;
      id in accounts && accounts[id].currency == input.currency && accounts[id].active
  }

  function RowsOf(tx: Id, currency: string, postings: seq<Posting>): (r: seq<Row>)
    ensures |r| == |postings|
  {
    if postings == [] then []
    else
      var n := |postings| - 1;
      var p := postings[n];
      RowsOf(tx, currency, postings[..n]) + [Row(tx, p.account, p.side, Units(p), currency)]
  }

  predicate HasWallet(wallets: map<WalletKey, Wallet>, id: Id) {
    exists k :: k in wallets && wallets[k].id == id
  }

  function WalletOf(wallets: map<WalletKey, Wallet>, key: WalletKey, newWallet: Id): Wallet {
    if key in wallets then wallets[key] else Wallet(newWallet, 0, 0, 1)
  }

  /** Creates the wallet if need be, moves it unless a balance would go negative, and records the new version. */
  function MoveWallet(b: Books, key: WalletKey, d: (int, int), tx: Id, newWallet: Id): Outcome {
    var w := WalletOf(b.wallets, key, newWallet);
    if key !in b.wallets && HasWallet(b.wallets, newWallet) then Err(ConstraintViolation)
    else if w.available + d.0 < 0 || w.frozen + d.1 < 0 then Err(WalletInsufficient)
    else
      var next := Wallet(w.id, w.available + d.0, w.frozen + d.1, w.version + 1);
      Ok(b.(wallets := b.wallets[key := next],
            versions := b.versions + [Version(w.id, tx, next.available, next.frozen, next.version)]), tx, true)
  }

  function Post(h: Hasher, b: Books, input: Input, newTx: Id, newWallet: Id): Outcome {
    if CheckPostings(input.postings).Some? then Err(CheckPostings(input.postings).value)
    else if input.wallet.Some? && Deltas(input.wallet.value).None? then Err(AmountInvalid)
    else
      match TransactionByKey(b.transactions, input.key)
      case Some(t) =>
        if SameContext(t, TransactionOf(h, input, t.id, true)) then Ok(b, t.id, false) else Err(KeyCollision)
      case None =>
        var t := TransactionOf(h, input, newTx, true);
        if !AccountsValid(b.accounts, input) then Err(AccountInvalid)
        else if !Insertable(b.transactions, t) then Err(ConstraintViolation)
        else
          var written := b.(transactions := b.transactions + [t],
                            rows := b.rows + RowsOf(newTx, input.currency, input.postings));
          match input.wallet
          case None => Ok(written, newTx, true)
          case Some(w) => MoveWallet(written, WalletKey(w.user, input.currency), Deltas(w).value, newTx, newWallet)
  }

  // ----- Opening accounts -----

  function LowerChar(c: char): char {
    if 'A' <= c <= 'Z' then (c as int + 32) as char else c
  }

  function Lower(s: string): string {
    if s == "" then "" else [LowerChar(s[0])] + Lower(s[1..])
  }

  function PlatformId(accountType: string, currency: string): Id {
    "ledger-platform-" + accountType + "-" + Lower(currency)
  }

  function UserId(user: Id, currency: string): Id {
    "ledger-user-" + user + "-available-" + Lower(currency)
  }

  const USER_AVAILABLE := "user_available"

  predicate IsAccountOf(a: Account, owner: Owner, accountType: string, currency: string) {
    a.owner == owner && a.accountType == accountType && a.currency == currency
  }

  /** Opens the account, or finds it; None when its id belongs to another account. */
  function Ensure(b: Books, id: Id, owner: Owner, accountType: string, currency: string): Option<Books> {
    if id !in b.accounts then Some(b.(accounts := b.accounts[id := Account(accountType, currency, true, owner)]))
    else if IsAccountOf(b.accounts[id], owner, accountType, currency) then Some(b)
    else None
  }

  function EnsurePlatform(b: Books, accountType: string, currency: string): Option<Books> {
    Ensure(b, PlatformId(accountType, currency), Platform, accountType, currency)
  }

  function EnsureUser(b: Books, user: Id, currency: string): Option<Books> {
    Ensure(b, UserId(user, currency), User(user), USER_AVAILABLE, currency)
  }

  // ----- Runs -----

  datatype Command = Command(input: Input, newTx: Id, newWallet: Id)

  function Next(h: Hasher, b: Books, c: Command): Books {
    match Post(h, b, c.input, c.newTx, c.newWallet)
    case Ok(next, _, _) => next
    case Err(_) => b
  }

  function Run(h: Hasher, b: Books, commands: seq<Command>): Books
    decreases |commands|
  {
    if commands == [] then b else Run(h, Next(h, b, commands[0]), commands[1..])
  }

  datatype Response = Success(id: Id, created: bool) | Failure(error: Error)

  ghost predicate Performs(before: Books, after: Books, r: Response, o: Outcome) {
    match o
    case Ok(books, id, created) => after == books && r == Success(id, created)
    case Err(error) => after == before && r == Failure(error)
  }
}
