/** Which posts go through, what they write, and what a key is bound to. */
module LedgerAnswers {
  import opened Common
  import opened Decimal
  import opened Ledger
  import opened LedgerLaws

  // ----- What a payload tells apart -----

  /** How often an account is debited or credited with an amount, whatever its spelling and place. */
  function TimesPosted(postings: seq<Posting>, account: Id, side: Side, units: nat): nat {
    if postings == [] then 0
    else
      var p := postings[|postings| - 1];
      TimesPosted(postings[..|postings| - 1], account, side, units)
      + if p.account == account && p.side == side && ParseUnits(p.amount) == Some(units) then 1 else 0
  }

  lemma {:induction false} CanonicalCounts(postings: seq<Posting>, account: Id, side: Side, units: nat)
    requires forall i :: 0 <= i < |postings| ==> ParseUnits(postings[i].amount).Some?
    ensures CanonicalPostings(postings)[CanonicalPosting(account, side, ToDecimal(units))] ==
      TimesPosted(postings, account, side, units)
  {
    if postings != [] {
      var n := |postings| - 1;
      CanonicalCounts(postings[..n], account, side, units);
      var p := postings[n];
      hide ToDecimal, ParseUnits;
      UnitsRoundTrip(ParseUnits(p.amount).value);
      UnitsRoundTrip(units);
    }
  }

  /** Every member of a canonical payload is of a readable amount. */
  lemma {:induction false} CanonicalMembers(postings: seq<Posting>, c: CanonicalPosting)
    requires forall i :: 0 <= i < |postings| ==> ParseUnits(postings[i].amount).Some?
    requires c in CanonicalPostings(postings)
    ensures exists units: nat :: c.amount == ToDecimal(units)
  {
    var n := |postings| - 1;
    if c in CanonicalPostings(postings[..n]) {
      CanonicalMembers(postings[..n], c);
    } else {
      assert c.amount == ToDecimal(ParseUnits(postings[n].amount).value);
    }
  }

  ghost predicate SamePostings(a: seq<Posting>, b: seq<Posting>) {
    forall account, side, units :: TimesPosted(a, account, side, units) == TimesPosted(b, account, side, units)
  }

  lemma PostingsIff(a: seq<Posting>, b: seq<Posting>)
    requires forall i :: 0 <= i < |a| ==> ParseUnits(a[i].amount).Some?
    requires forall i :: 0 <= i < |b| ==> ParseUnits(b[i].amount).Some?
    ensures CanonicalPostings(a) == CanonicalPostings(b) <==> SamePostings(a, b)
  {
    hide ToDecimal, ParseUnits, TimesPosted, CanonicalPostings;
    forall account, side, units
      ensures CanonicalPostings(a)[CanonicalPosting(account, side, ToDecimal(units))] ==
        TimesPosted(a, account, side, units)
      ensures CanonicalPostings(b)[CanonicalPosting(account, side, ToDecimal(units))] ==
        TimesPosted(b, account, side, units)
    {
      CanonicalCounts(a, account, side, units);
      CanonicalCounts(b, account, side, units);
    }
    if SamePostings(a, b) {
      forall c: CanonicalPosting ensures CanonicalPostings(a)[c] == CanonicalPostings(b)[c] {
        if c in CanonicalPostings(a) || c in CanonicalPostings(b) {
          if c in CanonicalPostings(a) {
            CanonicalMembers(a, c);
          } else {
            CanonicalMembers(b, c);
          }
          var units: nat :| c.amount == ToDecimal(units);
          assert c == CanonicalPosting(c.account, c.side, ToDecimal(units));
        }
      }
    }
  }

  /** The same movement of the same wallet, or none. */
  predicate SameMovement(a: Option<WalletMutation>, b: Option<WalletMutation>) {
    match (a, b)
    case (None, None) => true
    case (Some(v), Some(w)) => v.user == w.user && Deltas(v) == Deltas(w)
    case _ => false
  }

  lemma MovementIff(v: WalletMutation, w: WalletMutation)
    requires Deltas(v).Some? && Deltas(w).Some?
    ensures NormalizeWallet(v) == NormalizeWallet(w) <==> v.user == w.user && Deltas(v) == Deltas(w)
  {
    hide SignedText, Deltas;
    SignedTextDecidesAmount(Deltas(v).value.0, Deltas(w).value.0);
    SignedTextDecidesAmount(Deltas(v).value.1, Deltas(w).value.1);
  }

  predicate AllRead(input: Input) {
    && (forall i :: 0 <= i < |input.postings| ==> ParseUnits(input.postings[i].amount).Some?)
    && (input.wallet.Some? ==> Deltas(input.wallet.value).Some?)
  }

  /**
   * Two readable requests have the same payload exactly if they post the same amounts to the same accounts, move the
   * same wallet alike, reverse the same transaction, and have the same attachments.
   */
  lemma PayloadIff(a: Input, b: Input)
    requires AllRead(a) && AllRead(b)
    ensures PayloadOf(a) == PayloadOf(b) <==>
      && SamePostings(a.postings, b.postings) && SameMovement(a.wallet, b.wallet)
      && a.reversal == b.reversal && a.attachments == b.attachments
  {
    hide CanonicalPostings, Deltas, NormalizeWallet, SamePostings, ParseUnits;
    PostingsIff(a.postings, b.postings);
    if a.wallet.Some? && b.wallet.Some? {
      MovementIff(a.wallet.value, b.wallet.value);
    }
  }

  // ----- Uniqueness, in the columns -----

  /** No two transactions share an id, a key, a source of their kind and currency, or the transaction they reverse. */
  lemma UniqueColumns(b: Books, i: nat, j: nat)
    requires Unique(b.transactions) && i < j < |b.transactions|
    ensures var t, u := b.transactions[i], b.transactions[j];
      && t.id != u.id && t.key != u.key
      && !(t.sourceType == u.sourceType && t.sourceId == u.sourceId && t.kind == u.kind && t.currency == u.currency)
      && (t.reversal.Some? ==> u.reversal != t.reversal)
  {
  }

  /** A reversal names an earlier transaction. */
  predicate ReversalKnown(transactions: seq<Transaction>, i: nat)
    requires i < |transactions|
  {
    transactions[i].reversal.Some? ==>
      exists j :: 0 <= j < i && transactions[j].id == transactions[i].reversal.value
  }

  predicate ReversalsKnown(transactions: seq<Transaction>) {
    forall i :: 0 <= i < |transactions| ==> ReversalKnown(transactions, i)
  }

  lemma NextKeepsReversals(h: Hasher, b: Books, c: Command)
    requires ReversalsKnown(b.transactions)
    ensures ReversalsKnown(Next(h, b, c).transactions)
  {
    NextShape(h, b, c);
    var after := Next(h, b, c).transactions;
    forall i | 0 <= i < |after| ensures ReversalKnown(after, i) {
      if i < |b.transactions| {
        assert ReversalKnown(b.transactions, i);
        if after[i].reversal.Some? {
          var j :| 0 <= j < i && b.transactions[j].id == after[i].reversal.value;
          assert after[j].id == after[i].reversal.value;
        }
      } else if after[i].reversal.Some? {
        var j :| 0 <= j < |b.transactions| && b.transactions[j].id == after[i].reversal.value;
        assert after[j].id == after[i].reversal.value;
      }
    }
  }

  // ----- Versions -----

  function VersionsOf(versions: seq<Version>, wallet: Id): nat {
    if versions == [] then 0
    else
      var n := |versions| - 1;
      VersionsOf(versions[..n], wallet) + if versions[n].wallet == wallet then 1 else 0
  }

  /** A wallet starts at version 1, and each movement raises it by one. */
  predicate VersionsCount(b: Books) {
    && (forall k :: k in b.wallets ==> b.wallets[k].version == 1 + VersionsOf(b.versions, b.wallets[k].id))
    && (forall i :: 0 <= i < |b.versions| ==> HasWallet(b.wallets, b.versions[i].wallet))
    && (forall k, l :: k in b.wallets && l in b.wallets && k != l ==> b.wallets[k].id != b.wallets[l].id)
  }

  lemma {:induction false} NoVersions(versions: seq<Version>, wallet: Id)
    requires forall i :: 0 <= i < |versions| ==> versions[i].wallet != wallet
    ensures VersionsOf(versions, wallet) == 0
  {
    if versions != [] {
      NoVersions(versions[..|versions| - 1], wallet);
    }
  }

  lemma VersionsAppend(versions: seq<Version>, v: Version, wallet: Id)
    ensures VersionsOf(versions + [v], wallet) == VersionsOf(versions, wallet) + if v.wallet == wallet then 1 else 0
  {
    assert (versions + [v])[..|versions|] == versions;
  }

  /** One wallet is new with version 2 or has its next version, and that version is recorded. */
  predicate Moved(b: Books, key: WalletKey, after: Books) {
    && key in after.wallets && after.wallets == b.wallets[key := after.wallets[key]]
    && after.wallets[key].version == (if key in b.wallets then b.wallets[key].version + 1 else 2)
    && (key in b.wallets ==> after.wallets[key].id == b.wallets[key].id)
    && (key !in b.wallets ==> !HasWallet(b.wallets, after.wallets[key].id))
    && |after.versions| == |b.versions| + 1 && after.versions == b.versions + [after.versions[|b.versions|]]
    && after.versions[|b.versions|].wallet == after.wallets[key].id
  }

  lemma MoveMoves(b: Books, key: WalletKey, d: (int, int), tx: Id, newWallet: Id)
    requires MoveWallet(b, key, d, tx, newWallet).Ok?
    ensures Moved(b, key, MoveWallet(b, key, d, tx, newWallet).books)
  {
    hide HasWallet;
  }

  lemma MoveCounts(b: Books, key: WalletKey, after: Books)
    requires VersionsCount(b) && Moved(b, key, after)
    ensures VersionsCount(after)
  {
    forall k | k in after.wallets ensures after.wallets[k].version == 1
      + VersionsOf(after.versions, after.wallets[k].id)
    {
      MoveCountsOne(b, key, after, k);
    }
    forall i | 0 <= i < |after.versions| ensures HasWallet(after.wallets, after.versions[i].wallet) {
      WalletKept(b, after, key, i);
    }
    hide VersionsOf;
  }

  lemma MoveCountsOne(b: Books, key: WalletKey, after: Books, k: WalletKey)
    requires VersionsCount(b) && Moved(b, key, after) && k in after.wallets
    ensures after.wallets[k].version == 1 + VersionsOf(after.versions, after.wallets[k].id)
  {
    hide VersionsOf;
    VersionsAppend(b.versions, after.versions[|b.versions|], after.wallets[k].id);
    if key !in b.wallets && k == key {
      forall i | 0 <= i < |b.versions| ensures b.versions[i].wallet != after.wallets[key].id {
        assert HasWallet(b.wallets, b.versions[i].wallet);
      }
      NoVersions(b.versions, after.wallets[key].id);
    }
  }

  lemma WalletKept(b: Books, after: Books, key: WalletKey, i: nat)
    requires VersionsCount(b) && Moved(b, key, after) && i < |after.versions|
    ensures HasWallet(after.wallets, after.versions[i].wallet)
  {
    hide VersionsOf;
    if i < |b.versions| {
      assert HasWallet(b.wallets, b.versions[i].wallet);
      var k :| k in b.wallets && b.wallets[k].id == after.versions[i].wallet;
      assert k in after.wallets && after.wallets[k].id == after.versions[i].wallet;
    }
  }

  lemma NextCounts(h: Hasher, b: Books, c: Command)
    requires VersionsCount(b)
    ensures VersionsCount(Next(h, b, c))
  {
    hide Post, Creates, CheckPostings, AccountsValid, Insertable, TransactionByKey, MoveWallet;
    NextShape(h, b, c);
    if Creates(h, b, c) && c.input.wallet.Some? {
      var w := c.input.wallet.value;
      var drafted := Drafted(h, b, c);
      assert VersionsCount(drafted);
      var key, d := WalletKey(w.user, c.input.currency), Deltas(w).value;
      MoveMoves(drafted, key, d, c.newTx, c.newWallet);
      MoveCounts(drafted, key, MoveWallet(drafted, key, d, c.newTx, c.newWallet).books);
    }
  }

  /** Over every run: each reversal names an earlier transaction, and each wallet's version counts its movements. */
  lemma {:induction false} RunCounts(h: Hasher, b: Books, commands: seq<Command>)
    requires ReversalsKnown(b.transactions) && VersionsCount(b)
    ensures ReversalsKnown(Run(h, b, commands).transactions) && VersionsCount(Run(h, b, commands))
    decreases |commands|
  {
    hide Next, ReversalsKnown, VersionsCount;
    if commands != [] {
      NextKeepsReversals(h, b, commands[0]);
      NextCounts(h, b, commands[0]);
      RunCounts(h, Next(h, b, commands[0]), commands[1..]);
    }
  }

  // ----- Going through -----

  /** At least two postings of readable positive amounts, the debits as large as the credits. */
  predicate Balanced(postings: seq<Posting>) {
    && |postings| >= 2
    && (forall i :: 0 <= i < |postings| ==>
          ParseUnits(postings[i].amount).Some? && ParseUnits(postings[i].amount).value > 0)
    && Total(postings, Debit) == Total(postings, Credit)
  }

  lemma {:induction false} NoneBadIff(postings: seq<Posting>)
    ensures FirstBad(postings).None? <==>
      forall i :: 0 <= i < |postings| ==>
        ParseUnits(postings[i].amount).Some? && ParseUnits(postings[i].amount).value > 0
  {
    if postings != [] {
      var n := |postings| - 1;
      NoneBadIff(postings[..n]);
      hide ParseUnits;
      assert forall i :: 0 <= i < n ==> postings[..n][i] == postings[i];
    }
  }

  /** All accounts are there, active, and of the currency. */
  predicate AccountsOpen(accounts: map<Id, Account>, input: Input) {
    forall i :: 0 <= i < |input.postings| ==>
      && input.postings[i].account in accounts && accounts[input.postings[i].account].active
      && accounts[input.postings[i].account].currency == input.currency
  }

  /** New in every unique column, and reversing something known if anything. */
  predicate IsNew(transactions: seq<Transaction>, input: Input, newTx: Id) {
    && (forall i :: 0 <= i < |transactions| ==>
         var t := transactions[i];
         && t.id != newTx && t.key != input.key
         && !(t.sourceType == input.sourceType && t.sourceId == input.sourceId && t.kind == input.kind
              && t.currency == input.currency)
         && (t.reversal.Some? ==> t.reversal != input.reversal))
    && (input.reversal.Some? ==> exists i :: 0 <= i < |transactions| && transactions[i].id == input.reversal.value)
  }

  /** What the wallet holds covers the movement. */
  predicate Covered(b: Books, input: Input, newWallet: Id) {
    input.wallet.Some? ==>
      && Deltas(input.wallet.value).Some?
      && var key, d := WalletKey(input.wallet.value.user, input.currency), Deltas(input.wallet.value).value;
         && Holding(b, key).0 + d.0 >= 0 && Holding(b, key).1 + d.1 >= 0
         && (key in b.wallets || forall k :: k in b.wallets ==> b.wallets[k].id != newWallet)
  }

  lemma {:induction false} KeyIsNew(transactions: seq<Transaction>, key: string)
    ensures TransactionByKey(transactions, key).None? <==>
      forall i :: 0 <= i < |transactions| ==> transactions[i].key != key
  {
    if transactions != [] {
      KeyIsNew(transactions[..|transactions| - 1], key);
    }
  }

  lemma InsertableIff(h: Hasher, b: Books, input: Input, newTx: Id)
    requires TransactionByKey(b.transactions, input.key).None?
    ensures Insertable(b.transactions, TransactionOf(h, input, newTx, true)) <==> IsNew(b.transactions, input, newTx)
  {
    KeyIsNew(b.transactions, input.key);
    hide TransactionByKey;
    var t := TransactionOf(h, input, newTx, true);
    forall i | 0 <= i < |b.transactions|
      ensures !Clash(b.transactions[i], t) <==>
        var u := b.transactions[i];
        && u.id != newTx && u.key != input.key
        && !(u.sourceType == input.sourceType && u.sourceId == input.sourceId && u.kind == input.kind
             && u.currency == input.currency)
        && (u.reversal.Some? ==> u.reversal != input.reversal)
    {
    }
  }

  /**
   * Under an unused key a post goes through exactly if it is balanced, its accounts are open, and its wallet covers
   * it.
   */
  lemma PostedIff(h: Hasher, b: Books, input: Input, newTx: Id, newWallet: Id)
    requires TransactionByKey(b.transactions, input.key).None?
    ensures Post(h, b, input, newTx, newWallet).Ok? <==>
      && Balanced(input.postings) && AccountsOpen(b.accounts, input) && IsNew(b.transactions, input, newTx)
      && Covered(b, input, newWallet)
  {
    NoneBadIff(input.postings);
    InsertableIff(h, b, input, newTx);
    hide FirstBad, Total, Deltas, Insertable, IsNew, TransactionByKey, TransactionOf, RowsOf, ParseUnits;
    if input.wallet.Some? && Deltas(input.wallet.value).Some? {
      var w := input.wallet.value;
      var written := b.(transactions := b.transactions + [TransactionOf(h, input, newTx, true)],
                        rows := b.rows + RowsOf(newTx, input.currency, input.postings));
      MovedIff(b, written, WalletKey(w.user, input.currency), Deltas(w).value, newTx, newWallet);
    }
  }

  lemma MovedIff(b: Books, written: Books, key: WalletKey, d: (int, int), tx: Id, newWallet: Id)
    requires written.wallets == b.wallets
    ensures MoveWallet(written, key, d, tx, newWallet).Ok? <==>
      && Holding(b, key).0 + d.0 >= 0 && Holding(b, key).1 + d.1 >= 0
      && (key in b.wallets || forall k :: k in b.wallets ==> b.wallets[k].id != newWallet)
  {
  }

  /** What it writes: the transaction as it was asked for, and one row for each posting, in order. */
  lemma PostWrites(h: Hasher, b: Books, input: Input, newTx: Id, newWallet: Id)
    requires TransactionByKey(b.transactions, input.key).None? && Post(h, b, input, newTx, newWallet).Ok?
    ensures var out := Post(h, b, input, newTx, newWallet);
      && out.id == newTx && out.created && out.books.accounts == b.accounts
      && out.books.transactions == b.transactions + [
           Transaction(newTx, input.kind, input.sourceType, input.sourceId, input.currency, input.key, input.actor,
                       h(PayloadOf(input)), input.reversal, true)]
      && |out.books.rows| == |b.rows| + |input.postings| && out.books.rows[..|b.rows|] == b.rows
      && forall i :: 0 <= i < |input.postings| ==>
           var p, row := input.postings[i], out.books.rows[|b.rows| + i];
           row.tx == newTx && row.account == p.account && row.side == p.side && row.currency == input.currency
             && ParseUnits(p.amount) == Some(row.amount)
  {
    PostedIff(h, b, input, newTx, newWallet);
    RowsAre(newTx, input.currency, input.postings);
    hide FirstBad, Total, Deltas, Insertable, IsNew, TransactionByKey, RowsOf, ParseUnits, PayloadOf, CheckPostings,
      AccountsValid;
  }
}
