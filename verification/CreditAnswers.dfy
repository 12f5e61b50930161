/** What callers of the credit service are told, the first time and ever after. */
module CreditAnswers {
  import opened Common
  import opened Credits
  import opened CreditLaws

  /** The same answer, as a repetition. */
  function Again(r: Reply): Reply {
    match r
    case Posted(balance, _) => Posted(balance, false)
    case Held(id, _) => Held(id, false)
    case Charged(id, settled, _) => Charged(id, settled, false)
    case Freed(id, _) => Freed(id, false)
  }

  /** A new ledger row is answered with the balance it leaves, which is also the one stored in the row. */
  lemma AnswersTheBalance(b: Book, m: Mutation)
    requires Mutate(b, m).Ok? && EntryByKey(b.ledger, m.key).None?
    ensures var out := Mutate(b, m);
      && out.reply == Posted(AccountOf(out.book, m.user).balance, true)
      && out.book.ledger == b.ledger + [Entry(m, AccountOf(out.book, m.user).balance)]
      && AccountOf(out.book, m.user).balance ==
         Balance(AccountOf(b, m.user).balance.available + m.delta.available,
                 AccountOf(b, m.user).balance.reserved + m.delta.reserved)
      && forall user :: user != m.user ==> AccountOf(out.book, user) == AccountOf(b, user)
  {
  }

  lemma GrantIsRepeated(b: Book, g: GrantInput, later: Book, h: GrantInput)
    requires Mutate(b, GrantMutation(g)).Ok? && Mutate(b, GrantMutation(g)).book.ledger <= later.ledger
    requires g == h.(requestId := g.requestId)
    ensures Mutate(later, GrantMutation(h)) == Ok(later, Again(Mutate(b, GrantMutation(g)).reply))
  {
    hide SourceTaken;
    var next := Mutate(b, GrantMutation(g)).book;
    if next.ledger != b.ledger {
      Appended(b.ledger, next.ledger[|b.ledger|]);
    }
    LookupsPersist(next.ledger, later.ledger);
  }

  lemma HoldIsRepeated(b: Book, r: ReserveInput, newId: Id, later: Book, q: ReserveInput, otherId: Id)
    requires Inv(b) && Hold(b, r, newId).Ok? && Extends(Hold(b, r, newId).book, later)
    requires r == q.(requestId := r.requestId)
    ensures Hold(later, q, otherId) == Ok(later, Again(Hold(b, r, newId).reply))
  {
    hide Mutate, Inv, RowsInv, LedgerInv, SumsInv;
    HoldCommits(b, r, newId);
    StaysCommitted(Hold(b, r, newId).book, later, ReserveStep(r, newId));
    HoldIndexes(b, r, newId);
  }

  /** The answer names the reservation under the key. */
  lemma HoldIndexes(b: Book, r: ReserveInput, newId: Id)
    requires Hold(b, r, newId).Ok?
    ensures var out := Hold(b, r, newId);
      out.reply.Held? && r.key in out.book.byKey && out.book.byKey[r.key] == out.reply.reservation
  {
    hide EntryByKey, SourceTaken, SameReserve;
  }

  lemma ChargeIsRepeated(b: Book, s: SettleInput, later: Book, t: SettleInput)
    requires Inv(b) && Charge(b, s).Ok? && Extends(Charge(b, s).book, later) && s == t.(requestId := s.requestId)
    ensures Charge(later, t) == Ok(later, Again(Charge(b, s).reply))
  {
    hide Inv, RowsInv, LedgerInv, SumsInv;
    ChargeCommits(b, s);
    StaysCommitted(Charge(b, s).book, later, SettleStep(s));
    assert Continues(Charge(b, s).book.reservations[s.reservation], later.reservations[s.reservation]);
  }

  lemma FreeIsRepeated(b: Book, r: ReleaseInput, later: Book, q: ReleaseInput)
    requires Inv(b) && Free(b, r).Ok? && Extends(Free(b, r).book, later) && r == q.(requestId := r.requestId)
    ensures Free(later, q) == Ok(later, Again(Free(b, r).reply))
  {
    hide Inv, RowsInv, LedgerInv, SumsInv;
    FreeCommits(b, r);
    StaysCommitted(Free(b, r).book, later, ReleaseStep(r));
    assert Continues(Free(b, r).book.reservations[r.reservation], later.reservations[r.reservation]);
  }

  /** Whatever ran in between, a repeated call is answered as it was the first time, and changes nothing. */
  lemma RepeatIsAnswered(b: Book, x: Step, between: seq<Step>, y: Step)
    requires Inv(b) && Exec(b, x).Ok? && SameCall(x, y) && !x.AdjustStep?
    ensures var later := Run(Next(b, x), between);
      Exec(later, y) == Ok(later, Again(Exec(b, x).reply))
  {
    hide Inv, Mutate, Hold, Charge, Free, AdjustBalance;
    ExecKeepsInv(b, x);
    RunExtends(Next(b, x), between);
    var later := Run(Next(b, x), between);
    match x
    case GrantStep(g) => GrantIsRepeated(b, g, later, y.grant);
    case ReserveStep(r, newId) => HoldIsRepeated(b, r, newId, later, y.reserve, y.newId);
    case SettleStep(s) => ChargeIsRepeated(b, s, later, y.settle);
    case ReleaseStep(r) => FreeIsRepeated(b, r, later, y.release);
  }

  // ----- What is accepted, and what it moves -----

  /** A grant under an unused key and for an unused source is accepted exactly if it grants anything. */
  lemma GrantAcceptedIff(b: Book, g: GrantInput)
    requires LedgerInv(b) && EntryByKey(b.ledger, g.key).None? && !SourceTaken(b.ledger, GrantMutation(g))
    ensures Mutate(b, GrantMutation(g)).Ok? <==> g.credits > 0
    ensures Mutate(b, GrantMutation(g)).Ok? ==>
      var was, now := AccountOf(b, g.user).balance, AccountOf(Mutate(b, GrantMutation(g)).book, g.user).balance;
      now == Balance(was.available + g.credits, was.reserved)
  {
    assert Agrees(AccountOf(b, g.user), Tally(b.ledger, g.user));
    hide LedgerInv, EntryByKey, SourceTaken, Tally;
  }

  /** Whatever its amount, a source is granted to once. */
  lemma SourceIsGrantedOnce(b: Book, g: GrantInput, i: nat)
    requires EntryByKey(b.ledger, g.key).None? && i < |b.ledger|
    requires b.ledger[i].mutation.kind == Grant
    requires b.ledger[i].mutation.sourceType == g.sourceType && b.ledger[i].mutation.sourceId == g.sourceId
    ensures Mutate(b, GrantMutation(g)).Err?
  {
    assert SameSource(b.ledger[i].mutation, GrantMutation(g));
  }

  /**
   * A hold under unused keys, with a new id and for an unused source, is accepted exactly if it is for anything and
   * the customer has that much available, which is then reserved.
   */
  lemma HoldAcceptedIff(b: Book, r: ReserveInput, newId: Id)
    requires Inv(b) && r.key !in b.byKey && newId !in b.reservations
    requires EntryByKey(b.ledger, r.key + ":ledger").None? && !SourceTaken(b.ledger, ReserveMutation(r, newId))
    ensures Hold(b, r, newId).Ok? <==> 0 < r.credits <= AccountOf(b, r.user).balance.available
    ensures Hold(b, r, newId).Err? ==> Hold(b, r, newId).error == if r.credits <= 0 then AmountInvalid else Insufficient
    ensures Hold(b, r, newId).Ok? ==>
      var out := Hold(b, r, newId);
      var was, now := AccountOf(b, r.user).balance, AccountOf(out.book, r.user).balance;
      && out.reply == Held(newId, true)
      && now == Balance(was.available - r.credits, was.reserved + r.credits)
      && out.book.reservations ==
         b.reservations[newId := Reservation(r.user, r.credits, None, Reserved, r.key, r.expiresAt)]
      && out.book.byKey == b.byKey[r.key := newId]
      && forall user :: user != r.user ==> AccountOf(out.book, user) == AccountOf(b, user)
  {
    assert Agrees(AccountOf(b, r.user), Tally(b.ledger, r.user));
    hide Inv, EntryByKey, SourceTaken, Tally;
  }

  /** Only metered usage of a known reservation that is not released can be charged, and only within the estimate. */
  lemma ChargedOnlyIf(b: Book, s: SettleInput)
    requires Inv(b) && Charge(b, s).Ok?
    ensures s.usage.source == "provider_metering" && !IsBlank(s.usage.usageId) && s.reservation in b.reservations
    ensures var row := b.reservations[s.reservation];
      && row.status != Released
      && (row.status == Reserved ==> 0 <= s.usage.credits <= row.estimated)
      && Charge(b, s).reply ==
         Charged(s.reservation, if row.status == Settled then row.settled.value else s.usage.credits,
                 row.status == Reserved)
  {
    assert s.reservation in b.reservations ==> RowOk(b.reservations[s.reservation]);
    hide Inv, Mutate, EntryOf;
  }

  lemma FreedOnlyIf(b: Book, r: ReleaseInput)
    requires Free(b, r).Ok?
    ensures r.reservation in b.reservations && b.reservations[r.reservation].status != Settled
    ensures Free(b, r).reply == Freed(r.reservation, b.reservations[r.reservation].status == Reserved)
  {
    hide Mutate, EntryOf;
  }
}
