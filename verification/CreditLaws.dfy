/** What every run of credit operations keeps. */
module CreditLaws {
  import opened Common
  import opened Credits

  // ----- The invariant -----

  /** An account carries exactly the sums of its ledger rows; every row bumps the version once. */
  ghost predicate Agrees(a: Account, t: Totals) {
    && a.balance == Balance(t.available, t.reserved)
    && a.balance.available >= 0 && a.balance.reserved >= 0
    && t.entries <= a.version <= t.entries + 1
  }

  /** The balances stored in a row are the sums of the rows up to and including it. */
  ghost predicate IsPrefixSum(ledger: seq<Entry>, i: nat)
    requires i < |ledger|
  {
    var t := Tally(ledger[..i + 1], ledger[i].mutation.user);
    ledger[i].balance == Balance(t.available, t.reserved)
  }

  ghost predicate LedgerInv(b: Book) {
    && (forall user :: Agrees(AccountOf(b, user), Tally(b.ledger, user)))
    && (forall user :: user !in b.accounts ==> Tally(b.ledger, user).entries == 0)
    && (forall i :: 0 <= i < |b.ledger| ==> IsPrefixSum(b.ledger, i))
    && (forall i :: 0 <= i < |b.ledger| ==> ValidMutation(b.ledger[i].mutation.kind, b.ledger[i].mutation.delta))
    && (forall i, j :: 0 <= i < j < |b.ledger| ==> b.ledger[i].mutation.key != b.ledger[j].mutation.key)
  }

  ghost predicate RowOk(r: Reservation) {
    && r.estimated > 0
    && (r.status == Settled <==> r.settled.Some?)
    && (r.settled.Some? ==> 0 <= r.settled.value <= r.estimated)
  }

  /** How many ledger rows of a kind a reservation must have in its present state. */
  ghost function RowsDue(b: Book, kind: Kind, reservation: Id): nat {
    if reservation !in b.reservations then 0
    else
      match kind
      case Reserve => 1
      case Settle => if b.reservations[reservation].status == Settled then 1 else 0
      case Release => if b.reservations[reservation].status == Released then 1 else 0
      case _ => 0
  }

  /** What a reservation has cost its user. */
  ghost function CostOf(b: Book, reservation: Id): int {
    if reservation in b.reservations && b.reservations[reservation].settled.Some?
    then b.reservations[reservation].settled.value else 0
  }

  /** A ledger row written for a reservation belongs to that reservation's user and key. */
  ghost predicate Documents(b: Book, m: Mutation) {
    && (m.kind == Reserve || m.kind == Settle || m.kind == Release ==> m.reservation.Some?)
    && (m.reservation.Some? ==>
      && m.reservation.value in b.reservations
      && var row := b.reservations[m.reservation.value];
      && m.user == row.user
      && (m.kind == Reserve ==> m.key == row.key + ":ledger" && m.delta == Delta(-row.estimated, row.estimated))
      && (m.kind == Settle || m.kind == Release ==>
            m.sourceType == RESERVATION_SOURCE && m.sourceId == m.reservation.value)
      && (m.kind == Release ==> m.delta == PlanRelease(row.estimated)))
  }

  /** Holds add up to the reserved balances, settlements to the consumption in the ledger. */
  ghost predicate SumsInv(b: Book) {
    && (forall user :: MapSum(b.reservations, HeldBy(user)) == AccountOf(b, user).balance.reserved)
    && (forall user :: MapSum(b.reservations, SpentBy(user)) == Tally(b.ledger, user).consumed)
  }

  /** Every reservation has exactly the ledger rows, and the cost, that its state calls for. */
  ghost predicate RowsInv(b: Book) {
    && (forall id :: id in b.reservations ==> RowOk(b.reservations[id]))
    && (forall id :: id in b.reservations ==>
          b.reservations[id].key in b.byKey && b.byKey[b.reservations[id].key] == id)
    && IndexOk(b)
    && (forall kind, id :: Rows(b.ledger, kind, id) == RowsDue(b, kind, id))
    && (forall id :: NetCharge(b.ledger, id) == CostOf(b, id))
    && (forall i :: 0 <= i < |b.ledger| ==> Documents(b, b.ledger[i].mutation))
  }

  ghost predicate Inv(b: Book) {
    LedgerInv(b) && SumsInv(b) && RowsInv(b)
  }

  lemma EmptyBookInv()
    ensures Inv(EMPTY_BOOK)
  {
  }

  // ----- Appending one row -----

  lemma Appended(ledger: seq<Entry>, e: Entry)
    ensures forall user :: Tally(ledger + [e], user) == Count(Tally(ledger, user), e, user)
    ensures forall kind, id ::
      Rows(ledger + [e], kind, id) == Rows(ledger, kind, id) + if IsEntryOf(e, kind, id) then 1 else 0
    ensures forall id ::
      NetCharge(ledger + [e], id) == NetCharge(ledger, id)
        - if e.mutation.reservation == Some(id) then e.mutation.delta.available + e.mutation.delta.reserved else 0
    ensures forall key ::
      EntryByKey(ledger + [e], key) ==
        if EntryByKey(ledger, key).Some? then EntryByKey(ledger, key)
        else if e.mutation.key == key then Some(e) else None
    ensures forall kind, id ::
      EntryOf(ledger + [e], kind, id) ==
        if EntryOf(ledger, kind, id).Some? then EntryOf(ledger, kind, id)
        else if IsEntryOf(e, kind, id) then Some(e) else None
  {
    assert (ledger + [e])[..|ledger|] == ledger;
  }

  /** A lookup by key finds a row exactly when some row has the key. */
  lemma {:induction false} KeyLookup(ledger: seq<Entry>, key: string)
    ensures match EntryByKey(ledger, key)
            case None => forall i :: 0 <= i < |ledger| ==> ledger[i].mutation.key != key
            case Some(e) => e in ledger && e.mutation.key == key
  {
    if ledger != [] {
      KeyLookup(ledger[..|ledger| - 1], key);
    }
  }

  /** A lookup by reservation finds a row exactly when the row count is positive. */
  lemma {:induction false} RowLookup(ledger: seq<Entry>, kind: Kind, id: Id)
    ensures match EntryOf(ledger, kind, id)
            case None => Rows(ledger, kind, id) == 0
            case Some(e) => e in ledger && IsEntryOf(e, kind, id) && Rows(ledger, kind, id) > 0
  {
    if ledger != [] {
      RowLookup(ledger[..|ledger| - 1], kind, id);
    }
  }

  lemma TallyAppended(ledger: seq<Entry>, e: Entry, user: Id)
    ensures Tally(ledger + [e], user) == Count(Tally(ledger, user), e, user)
  {
    assert (ledger + [e])[..|ledger|] == ledger;
  }

  /** The account and the row that a balanced mutation writes. */
  ghost predicate Writes(b: Book, next: Book, m: Mutation, account: Account) {
    && ValidMutation(m.kind, m.delta)
    && ApplyDelta(AccountOf(b, m.user).balance, m.delta) == Some(account.balance)
    && (account.version == AccountOf(b, m.user).version + 1 || (m.user !in b.accounts && account.version == 1))
    && next.accounts == b.accounts[m.user := account]
    && next.ledger == b.ledger + [Entry(m, account.balance)]
  }

  lemma WriteAgrees(b: Book, next: Book, m: Mutation, account: Account, user: Id)
    requires Agrees(AccountOf(b, user), Tally(b.ledger, user)) && Writes(b, next, m, account)
    requires m.user !in b.accounts ==> Tally(b.ledger, m.user).entries == 0
    ensures Agrees(AccountOf(next, user), Tally(next.ledger, user))
    ensures user !in next.accounts ==> Tally(next.ledger, user).entries == Tally(b.ledger, user).entries
  {
    hide Tally;
    TallyAppended(b.ledger, Entry(m, account.balance), user);
  }

  lemma WritePrefix(b: Book, next: Book, m: Mutation, account: Account, i: nat)
    requires i < |next.ledger| && Writes(b, next, m, account)
    requires Agrees(AccountOf(next, m.user), Tally(next.ledger, m.user))
    requires i < |b.ledger| ==> IsPrefixSum(b.ledger, i)
    ensures IsPrefixSum(next.ledger, i)
  {
    hide Tally;
    if i < |b.ledger| {
      assert next.ledger[..i + 1] == b.ledger[..i + 1];
    } else {
      assert next.ledger[..i + 1] == next.ledger;
    }
  }

  lemma WriteShapes(b: Book, next: Book, m: Mutation, account: Account)
    requires LedgerInv(b) && EntryByKey(b.ledger, m.key) == None && Writes(b, next, m, account)
    ensures forall i :: 0 <= i < |next.ledger| ==>
      ValidMutation(next.ledger[i].mutation.kind, next.ledger[i].mutation.delta)
    ensures forall i, j :: 0 <= i < j < |next.ledger| ==> next.ledger[i].mutation.key != next.ledger[j].mutation.key
  {
    hide Agrees, IsPrefixSum, Tally, EntryByKey, ValidMutation;
    KeyLookup(b.ledger, m.key);
  }

  /** Writing a balanced row and its account keeps the ledger half of the invariant. */
  lemma PostKeepsLedger(b: Book, next: Book, m: Mutation, account: Account)
    requires LedgerInv(b) && EntryByKey(b.ledger, m.key) == None && Writes(b, next, m, account)
    ensures LedgerInv(next)
  {
    hide Agrees, IsPrefixSum, Tally, EntryByKey, ValidMutation, ApplyDelta;
    forall user
      ensures Agrees(AccountOf(next, user), Tally(next.ledger, user))
      ensures user !in next.accounts ==> Tally(next.ledger, user).entries == 0
    {
      WriteAgrees(b, next, m, account, user);
    }
    forall i | 0 <= i < |next.ledger| ensures IsPrefixSum(next.ledger, i) {
      WritePrefix(b, next, m, account, i);
    }
    WriteShapes(b, next, m, account);
  }

  lemma MutateKeepsLedger(b: Book, m: Mutation)
    requires LedgerInv(b)
    ensures Mutate(b, m).Ok? ==> LedgerInv(Mutate(b, m).book)
  {
    if Mutate(b, m).Ok? && Mutate(b, m).reply.created {
      var next := Mutate(b, m).book;
      PostKeepsLedger(b, next, m, next.accounts[m.user]);
    }
  }

  /** Rows about no reservation leave the reservation half alone. */
  lemma PostKeepsReservations(b: Book, next: Book, e: Entry)
    requires SumsInv(b) && RowsInv(b)
    requires next.ledger == b.ledger + [e] && next.reservations == b.reservations && next.byKey == b.byKey
    requires e.mutation.reservation == None && e.mutation.kind in {Grant, Adjust}
    requires forall user :: AccountOf(next, user).balance.reserved == AccountOf(b, user).balance.reserved
    ensures SumsInv(next) && RowsInv(next)
  {
    Appended(b.ledger, e);
  }

  /** Replacing one reservation of a user moves the user's two sums and nobody else's. */
  lemma SumsAfter(b: Book, next: Book, e: Entry, id: Id, row: Reservation)
    requires SumsInv(b)
    requires id in b.reservations ==> b.reservations[id].user == row.user
    requires next.reservations == b.reservations[id := row]
    requires next.ledger == b.ledger + [e] && e.mutation.user == row.user
    requires forall user :: user != row.user ==> AccountOf(next, user) == AccountOf(b, user)
    requires
      var before, user := (f: Reservation -> int) =>
        if id in b.reservations then f(b.reservations[id]) else 0, row.user;
      && AccountOf(next, user).balance.reserved ==
           AccountOf(b, user).balance.reserved - before(HeldBy(user)) + HeldBy(user)(row)
      && Count(Tally(b.ledger, user), e, user).consumed ==
           Tally(b.ledger, user).consumed - before(SpentBy(user)) + SpentBy(user)(row)
    ensures SumsInv(next)
  {
    Appended(b.ledger, e);
    forall user
      ensures MapSum(next.reservations, HeldBy(user)) == AccountOf(next, user).balance.reserved
      ensures MapSum(next.reservations, SpentBy(user)) == Tally(next.ledger, user).consumed
    {
      MapSumPut(b.reservations, id, row, HeldBy(user));
      MapSumPut(b.reservations, id, row, SpentBy(user));
    }
  }

  lemma RowsAppended(ledger: seq<Entry>, e: Entry, kind: Kind, id: Id)
    ensures Rows(ledger + [e], kind, id) == Rows(ledger, kind, id) + if IsEntryOf(e, kind, id) then 1 else 0
    ensures NetCharge(ledger + [e], id) == NetCharge(ledger, id) - DeltaOn(e.mutation, id)
  {
    assert (ledger + [e])[..|ledger|] == ledger;
  }

  /** What a mutation takes from or gives back to its user on account of one reservation. */
  function DeltaOn(m: Mutation, id: Id): int {
    if m.reservation == Some(id) then m.delta.available + m.delta.reserved else 0
  }

  /** The reservation half of the invariant, one part at a time. */
  lemma RowsInvFrom(b: Book, next: Book, e: Entry)
    requires next.ledger == b.ledger + [e]
    requires forall id :: id in next.reservations ==>
      && RowOk(next.reservations[id])
      && next.reservations[id].key in next.byKey && next.byKey[next.reservations[id].key] == id
    requires IndexOk(next)
    requires forall kind, id ::
      Rows(b.ledger, kind, id) + (if IsEntryOf(e, kind, id) then 1 else 0) == RowsDue(next, kind, id)
    requires forall id :: NetCharge(b.ledger, id) - DeltaOn(e.mutation, id) == CostOf(next, id)
    requires forall i :: 0 <= i < |b.ledger| ==> Documents(next, b.ledger[i].mutation)
    requires Documents(next, e.mutation)
    ensures RowsInv(next)
  {
    forall kind, id ensures Rows(next.ledger, kind, id) == RowsDue(next, kind, id) {
      RowsAppended(b.ledger, e, kind, id);
    }
    forall id ensures NetCharge(next.ledger, id) == CostOf(next, id) {
      RowsAppended(b.ledger, e, Reserve, id);
    }
  }

  /** The row that opens a hold. */
  predicate OpensHold(m: Mutation, id: Id, row: Reservation) {
    && m.kind == Reserve && m.reservation == Some(id) && m.user == row.user
    && m.delta == Delta(-row.estimated, row.estimated) && m.key == row.key + ":ledger"
  }

  ghost predicate Placed(b: Book, next: Book, id: Id, row: Reservation) {
    && id !in b.reservations && row.key !in b.byKey && RowOk(row) && row.status == Reserved
    && next.reservations == b.reservations[id := row] && next.byKey == b.byKey[row.key := id]
  }

  lemma HoldCounts(b: Book, next: Book, m: Mutation, id: Id, row: Reservation)
    requires (forall kind, id :: Rows(b.ledger, kind, id) == RowsDue(b, kind, id))
    requires (forall id :: NetCharge(b.ledger, id) == CostOf(b, id))
    requires Placed(b, next, id, row) && OpensHold(m, id, row)
    ensures forall kind, other ::
      Rows(b.ledger, kind, other) + (if m.kind == kind && m.reservation == Some(other) then 1 else 0) ==
        RowsDue(next, kind, other)
    ensures forall other :: NetCharge(b.ledger, other) - DeltaOn(m, other) == CostOf(next, other)
  {
    hide Rows, NetCharge;
  }

  lemma HoldDocuments(b: Book, next: Book, m: Mutation, id: Id, row: Reservation, n: Mutation)
    requires Placed(b, next, id, row) && OpensHold(m, id, row)
    ensures Documents(next, m)
    ensures Documents(b, n) ==> Documents(next, n)
  {
  }

  /** A new hold, together with its reserve row. */
  lemma RowsAfterHold(b: Book, next: Book, e: Entry, id: Id, row: Reservation)
    requires RowsInv(b)
    requires Placed(b, next, id, row) && OpensHold(e.mutation, id, row) && next.ledger == b.ledger + [e]
    ensures RowsInv(next)
  {
    HoldCounts(b, next, e.mutation, id, row);
    forall i | 0 <= i < |b.ledger| ensures Documents(next, b.ledger[i].mutation) {
      HoldDocuments(b, next, e.mutation, id, row, b.ledger[i].mutation);
    }
    HoldDocuments(b, next, e.mutation, id, row, e.mutation);
    hide Rows, RowsDue, NetCharge, CostOf, Documents, DeltaOn;
    RowsInvFrom(b, next, e);
  }

  /** The row that ends a hold, settled or released. */
  predicate Ends(m: Mutation, id: Id, row: Reservation) {
    && m.kind == (if row.status == Settled then Settle else Release)
    && m.reservation == Some(id) && m.user == row.user
    && m.sourceType == RESERVATION_SOURCE && m.sourceId == id
    && (row.status == Settled ==>
          row.settled.Some? && m.delta == Delta(row.estimated - row.settled.value, -row.estimated))
    && (row.status == Released ==> row.settled.None? && m.delta == PlanRelease(row.estimated))
  }

  /** A hold that ends, with only its status and its settled amount changed. */
  predicate Ended(b: Book, next: Book, id: Id, row: Reservation) {
    && id in b.reservations && b.reservations[id].status == Reserved && row.status != Reserved
    && row == b.reservations[id].(status := row.status, settled := row.settled)
    && next.reservations == b.reservations[id := row] && next.byKey == b.byKey
  }

  lemma EndCounts(b: Book, next: Book, m: Mutation, id: Id, row: Reservation)
    requires (forall kind, id :: Rows(b.ledger, kind, id) == RowsDue(b, kind, id))
    requires (forall id :: NetCharge(b.ledger, id) == CostOf(b, id))
    requires Ended(b, next, id, row) && Ends(m, id, row) && RowOk(b.reservations[id])
    ensures forall kind, other ::
      Rows(b.ledger, kind, other) + (if m.kind == kind && m.reservation == Some(other) then 1 else 0) ==
        RowsDue(next, kind, other)
    ensures forall other :: NetCharge(b.ledger, other) - DeltaOn(m, other) == CostOf(next, other)
  {
    hide Rows, NetCharge;
  }

  lemma EndDocuments(b: Book, next: Book, m: Mutation, id: Id, row: Reservation, n: Mutation)
    requires Ended(b, next, id, row) && Ends(m, id, row)
    ensures Documents(next, m)
    ensures Documents(b, n) ==> Documents(next, n)
  {
  }

  /** A hold that ends, together with the row that ends it. */
  lemma RowsAfterEnd(b: Book, next: Book, e: Entry, id: Id, row: Reservation)
    requires RowsInv(b) && RowOk(row)
    requires Ended(b, next, id, row) && Ends(e.mutation, id, row) && next.ledger == b.ledger + [e]
    ensures RowsInv(next)
  {
    EndCounts(b, next, e.mutation, id, row);
    forall i | 0 <= i < |b.ledger| ensures Documents(next, b.ledger[i].mutation) {
      EndDocuments(b, next, e.mutation, id, row, b.ledger[i].mutation);
    }
    EndDocuments(b, next, e.mutation, id, row, e.mutation);
    hide Rows, RowsDue, NetCharge, CostOf, Documents, DeltaOn;
    RowsInvFrom(b, next, e);
  }

  // ----- Every operation -----

  /** The tables are told apart by their kind and reservation, so no row of an ended hold exists yet. */
  lemma NoRowYet(b: Book, m: Mutation)
    requires Inv(b) && m.reservation.Some?
    requires RowsDue(b, m.kind, m.reservation.value) == 0
    ensures Mutate(b, m).Ok? ==> Mutate(b, m).reply.created
  {
    KeyLookup(b.ledger, m.key);
    RowLookup(b.ledger, m.kind, m.reservation.value);
    assert Rows(b.ledger, m.kind, m.reservation.value) == 0;
    if Mutate(b, m).Ok? && !Mutate(b, m).reply.created {
      var e := EntryByKey(b.ledger, m.key).value;
      NoRows(b.ledger, m.kind, m.reservation.value, e);
    }
  }

  lemma {:induction false} NoRows(ledger: seq<Entry>, kind: Kind, id: Id, e: Entry)
    requires Rows(ledger, kind, id) == 0
    ensures e in ledger ==> !IsEntryOf(e, kind, id)
  {
    if ledger != [] {
      NoRows(ledger[..|ledger| - 1], kind, id, e);
    }
  }

  function HeldRow(r: ReserveInput): Reservation {
    Reservation(r.user, r.credits, None, Reserved, r.key, r.expiresAt)
  }

  /** The book with the new reservation in it, before its ledger row is posted. */
  function Inserted(b: Book, r: ReserveInput, newId: Id): Book {
    b.(reservations := b.reservations[newId := HeldRow(r)], byKey := b.byKey[r.key := newId])
  }

  lemma HoldShape(b: Book, r: ReserveInput, newId: Id)
    requires IndexOk(b) && Hold(b, r, newId).Ok? && Hold(b, r, newId).reply.created
    ensures newId !in b.reservations && r.key !in b.byKey && r.credits > 0
    ensures Mutate(Inserted(b, r, newId), ReserveMutation(r, newId)).Ok? && Mutate(b, ReserveMutation(r, newId)).Ok?
    ensures Hold(b, r, newId).book == Mutate(Inserted(b, r, newId), ReserveMutation(r, newId)).book
  {
  }

  lemma HoldKeepsLedger(b: Book, r: ReserveInput, newId: Id)
    requires LedgerInv(b) && IndexOk(b) && Hold(b, r, newId).Ok? && Hold(b, r, newId).reply.created
    ensures LedgerInv(Hold(b, r, newId).book)
  {
    HoldShape(b, r, newId);
    MutateKeepsLedger(Inserted(b, r, newId), ReserveMutation(r, newId));
  }

  lemma HoldKeepsRows(b: Book, r: ReserveInput, newId: Id)
    requires Inv(b) && Hold(b, r, newId).Ok? && Hold(b, r, newId).reply.created
    ensures SumsInv(Hold(b, r, newId).book) && RowsInv(Hold(b, r, newId).book)
  {
    hide LedgerInv, SumsInv;
    HoldShape(b, r, newId);
    var m := ReserveMutation(r, newId);
    NoRowYet(b, m);
    var next := Hold(b, r, newId).book;
    var e := Entry(m, next.accounts[r.user].balance);
    SumsAfter(b, next, e, newId, HeldRow(r));
    RowsAfterHold(b, next, e, newId, HeldRow(r));
  }

  lemma HoldKeeps(b: Book, r: ReserveInput, newId: Id)
    requires Inv(b)
    ensures Hold(b, r, newId).Ok? ==> Inv(Hold(b, r, newId).book)
  {
    if Hold(b, r, newId).Ok? && Hold(b, r, newId).reply.created {
      HoldKeepsLedger(b, r, newId);
      HoldKeepsRows(b, r, newId);
    }
  }

  /** The ledger half depends on the ledger and the accounts alone. */
  lemma SameLedger(b: Book, next: Book)
    requires LedgerInv(b) && next.ledger == b.ledger && next.accounts == b.accounts
    ensures LedgerInv(next)
  {
    forall user ensures AccountOf(next, user) == AccountOf(b, user) {
    }
  }

  lemma EndMovesSums(b: Book, m: Mutation, id: Id, row: Reservation)
    requires SumsInv(b) && id in b.reservations && b.reservations[id].status == Reserved && RowOk(b.reservations[id])
    requires row == b.reservations[id].(status := row.status, settled := row.settled) && row.status != Reserved
    requires Ends(m, id, row) && Mutate(b, m).Ok? && Mutate(b, m).reply.created
    ensures SumsInv(Mutate(b, m).book.(reservations := b.reservations[id := row]))
  {
    hide SumsInv, EntryByKey, SourceTaken, Tally;
    var after := Mutate(b, m).book;
    SumsAfter(b, after.(reservations := b.reservations[id := row]), Entry(m, after.accounts[m.user].balance), id, row);
  }

  lemma EndMovesRows(b: Book, m: Mutation, id: Id, row: Reservation)
    requires RowsInv(b) && id in b.reservations && b.reservations[id].status == Reserved && RowOk(row)
    requires row == b.reservations[id].(status := row.status, settled := row.settled) && row.status != Reserved
    requires Ends(m, id, row) && Mutate(b, m).Ok? && Mutate(b, m).reply.created
    ensures RowsInv(Mutate(b, m).book.(reservations := b.reservations[id := row]))
  {
    hide RowsInv, EntryByKey, SourceTaken;
    var after := Mutate(b, m).book;
    RowsAfterEnd(b, after.(reservations := b.reservations[id := row]), Entry(m, after.accounts[m.user].balance), id,
                 row);
  }

  lemma EndKeeps(b: Book, m: Mutation, id: Id, row: Reservation)
    requires Inv(b) && id in b.reservations && b.reservations[id].status == Reserved && RowOk(row)
    requires row == b.reservations[id].(status := row.status, settled := row.settled) && row.status != Reserved
    requires Ends(m, id, row) && Mutate(b, m).Ok?
    ensures Inv(Mutate(b, m).book.(reservations := b.reservations[id := row]))
  {
    assert RowOk(b.reservations[id]) && RowsDue(b, m.kind, id) == 0;
    hide LedgerInv, SumsInv, RowsInv, Mutate;
    NoRowYet(b, m);
    MutateKeepsLedger(b, m);
    SameLedger(Mutate(b, m).book, Mutate(b, m).book.(reservations := b.reservations[id := row]));
    EndMovesSums(b, m, id, row);
    EndMovesRows(b, m, id, row);
  }

  lemma HoldIsOk(b: Book, m: Mutation, id: Id)
    requires Inv(b) && id in b.reservations
    ensures RowOk(b.reservations[id])
    ensures Mutate(b, m).Ok? ==> Mutate(b, m).book.reservations == b.reservations
  {
  }

  lemma ChargeKeeps(b: Book, s: SettleInput)
    requires Inv(b)
    ensures Charge(b, s).Ok? ==> Inv(Charge(b, s).book)
  {
    hide Inv, Mutate;
    if Charge(b, s).Ok? && Charge(b, s).reply.created {
      var held := b.reservations[s.reservation];
      var m := SettleMutation(s, held.user, PlanSettlement(held.estimated, s.usage.credits).value);
      HoldIsOk(b, m, s.reservation);
      EndKeeps(b, m, s.reservation, held.(status := Settled, settled := Some(s.usage.credits)));
    }
  }

  lemma FreeKeeps(b: Book, r: ReleaseInput)
    requires Inv(b)
    ensures Free(b, r).Ok? ==> Inv(Free(b, r).book)
  {
    hide Inv, Mutate;
    if Free(b, r).Ok? && Free(b, r).reply.created {
      var held := b.reservations[r.reservation];
      var m := ReleaseMutation(r, held.user, PlanRelease(held.estimated));
      HoldIsOk(b, m, r.reservation);
      EndKeeps(b, m, r.reservation, held.(status := Released));
    }
  }

  lemma GrantKeeps(b: Book, g: GrantInput)
    requires Inv(b)
    ensures var out := Mutate(b, GrantMutation(g)); out.Ok? ==> Inv(out.book)
  {
    hide LedgerInv, SumsInv, RowsInv, EntryByKey, SourceTaken, Tally;
    var out := Mutate(b, GrantMutation(g));
    MutateKeepsLedger(b, GrantMutation(g));
    if out.Ok? && out.reply.created {
      PostKeepsReservations(b, out.book, Entry(GrantMutation(g), out.book.accounts[g.user].balance));
    }
  }

  lemma AdjustKeeps(b: Book, a: AdjustInput)
    requires Inv(b)
    ensures AdjustBalance(b, a).Ok? ==> Inv(AdjustBalance(b, a).book)
  {
    hide SumsInv, RowsInv;
    if AdjustBalance(b, a).Ok? {
      var next := AdjustBalance(b, a).book;
      PostKeepsLedger(b, next, AdjustMutation(a), next.accounts[a.user]);
      PostKeepsReservations(b, next, Entry(AdjustMutation(a), next.accounts[a.user].balance));
    }
  }

  /** Every operation, successful or rolled back, keeps the invariant. */
  lemma ExecKeepsInv(b: Book, s: Step)
    requires Inv(b)
    ensures Inv(Next(b, s))
  {
    hide Inv, Mutate, Hold, Charge, Free, AdjustBalance;
    match s
    case GrantStep(g) => GrantKeeps(b, g);
    case ReserveStep(r, newId) => HoldKeeps(b, r, newId);
    case SettleStep(x) => ChargeKeeps(b, x);
    case ReleaseStep(r) => FreeKeeps(b, r);
    case AdjustStep(a) => AdjustKeeps(b, a);
  }

  lemma {:induction false} RunKeepsInv(b: Book, steps: seq<Step>)
    requires Inv(b)
    ensures Inv(Run(b, steps))
    decreases |steps|
  {
    if steps != [] {
      ExecKeepsInv(b, steps[0]);
      RunKeepsInv(Next(b, steps[0]), steps[1..]);
    }
  }

  // ----- Conservation -----

  /** Well-formed rows only move credit between the four places it can be. */
  lemma {:induction false} RowsConserve(ledger: seq<Entry>, user: Id)
    requires forall i :: 0 <= i < |ledger| ==> ValidMutation(ledger[i].mutation.kind, ledger[i].mutation.delta)
    ensures var t := Tally(ledger, user);
      && t.granted + t.adjusted == t.available + t.reserved + t.consumed
      && t.granted >= 0 && t.consumed >= 0
  {
    if ledger != [] {
      RowsConserve(ledger[..|ledger| - 1], user);
    }
  }

  /**
   * After any run: balances are non-negative, equal the sums of the ledger and the prefix sum stored in
   * every row; open holds add up to `reserved`; and what was granted or adjusted is still available,
   * still reserved, or was consumed by settlements.
   */
  lemma Conservation(steps: seq<Step>, user: Id)
    ensures var b := Run(EMPTY_BOOK, steps);
      var balance, t := AccountOf(b, user).balance, Tally(b.ledger, user);
      && balance.available >= 0 && balance.reserved >= 0
      && balance == Balance(t.available, t.reserved)
      && balance.reserved == MapSum(b.reservations, HeldBy(user))
      && t.consumed == MapSum(b.reservations, SpentBy(user))
      && t.granted + t.adjusted == balance.available + balance.reserved + t.consumed
      && (forall i :: 0 <= i < |b.ledger| ==> IsPrefixSum(b.ledger, i))
  {
    var b := Run(EMPTY_BOOK, steps);
    RunKeepsInv(EMPTY_BOOK, steps);
    RowsConserve(b.ledger, user);
    assert Agrees(AccountOf(b, user), Tally(b.ledger, user));
    assert MapSum(b.reservations, HeldBy(user)) == AccountOf(b, user).balance.reserved;
    assert MapSum(b.reservations, SpentBy(user)) == Tally(b.ledger, user).consumed;
  }

  /** The client's page accounts for every credit ever granted or adjusted, and its version for every entry. */
  lemma ClientViewBalances(steps: seq<Step>, user: Id)
    ensures var b := Run(EMPTY_BOOK, steps);
      var view := ClientView(b, user);
      && view.lifetimeGranted + Tally(b.ledger, user).adjusted == view.available + view.reserved + view.lifetimeConsumed
      && view.lifetimeConsumed == MapSum(b.reservations, SpentBy(user))
      && Tally(b.ledger, user).entries <= view.version <= Tally(b.ledger, user).entries + 1
      && (user !in b.accounts ==> view.version == 0)
  {
    var b := Run(EMPTY_BOOK, steps);
    Conservation(steps, user);
    RunKeepsInv(EMPTY_BOOK, steps);
    if user !in b.accounts {
      NoEntries(b.ledger, user);
    }
  }

  lemma {:induction false} NoEntries(ledger: seq<Entry>, user: Id)
    requires Tally(ledger, user).entries == 0
    ensures Tally(ledger, user) == Totals(0, 0, 0, 0, 0, 0)
  {
    if ledger != [] {
      NoEntries(ledger[..|ledger| - 1], user);
    }
  }

  // ----- History -----

  /** A reservation keeps its terms, and its state once it has ended. */
  predicate Continues(r: Reservation, later: Reservation) {
    && later == r.(status := later.status, settled := later.settled)
    && (r.status != Reserved ==> later == r)
  }

  ghost predicate IndexOk(b: Book) {
    forall key :: key in b.byKey ==> b.byKey[key] in b.reservations && b.reservations[b.byKey[key]].key == key
  }

  /** Rows are only ever added, and reservations only ever end. */
  ghost predicate Extends(b: Book, later: Book) {
    && b.ledger <= later.ledger
    && (forall id :: id in b.reservations ==>
        id in later.reservations && Continues(b.reservations[id], later.reservations[id]))
    && (forall key :: key in b.byKey ==> key in later.byKey && later.byKey[key] == b.byKey[key])
  }

  lemma MutateExtends(b: Book, m: Mutation)
    ensures Mutate(b, m).Ok? ==> Extends(b, Mutate(b, m).book)
  {
    hide EntryByKey, SourceTaken;
  }

  lemma HoldExtends(b: Book, r: ReserveInput, newId: Id)
    requires IndexOk(b)
    ensures Hold(b, r, newId).Ok? ==> Extends(b, Hold(b, r, newId).book)
  {
    hide EntryByKey, EntryOf, SourceTaken;
    if Hold(b, r, newId).Ok? && Hold(b, r, newId).reply.created {
      assert r.key !in b.byKey;
    }
  }

  lemma ChargeExtends(b: Book, x: SettleInput)
    ensures Charge(b, x).Ok? ==> Extends(b, Charge(b, x).book)
  {
    hide EntryByKey, EntryOf, SourceTaken;
  }

  lemma FreeExtends(b: Book, r: ReleaseInput)
    ensures Free(b, r).Ok? ==> Extends(b, Free(b, r).book)
  {
    hide EntryByKey, EntryOf, SourceTaken;
  }

  lemma AdjustExtends(b: Book, a: AdjustInput)
    ensures AdjustBalance(b, a).Ok? ==> Extends(b, AdjustBalance(b, a).book)
  {
    hide EntryByKey, SourceTaken;
  }

  lemma ExecExtends(b: Book, s: Step)
    requires IndexOk(b)
    ensures Extends(b, Next(b, s))
  {
    hide Mutate, Hold, Charge, Free, AdjustBalance, IndexOk;
    match s
    case GrantStep(g) => MutateExtends(b, GrantMutation(g));
    case ReserveStep(r, newId) => HoldExtends(b, r, newId);
    case SettleStep(x) => ChargeExtends(b, x);
    case ReleaseStep(r) => FreeExtends(b, r);
    case AdjustStep(a) => AdjustExtends(b, a);
  }

  lemma InvExtends(b: Book, s: Step)
    requires Inv(b)
    ensures Extends(b, Next(b, s))
  {
    hide Exec, Extends;
    ExecExtends(b, s);
  }

  lemma {:induction false} RunExtends(b: Book, steps: seq<Step>)
    requires Inv(b)
    ensures Extends(b, Run(b, steps))
    decreases |steps|
  {
    hide Inv, Next;
    if steps != [] {
      var next := Next(b, steps[0]);
      InvExtends(b, steps[0]);
      ExecKeepsInv(b, steps[0]);
      RunExtends(next, steps[1..]);
    }
  }

  lemma RowsOfReservation(b: Book, id: Id)
    requires RowsInv(b) && id in b.reservations
    ensures Rows(b.ledger, Reserve, id) == 1
    ensures Rows(b.ledger, Settle, id) == (if b.reservations[id].status == Settled then 1 else 0)
    ensures Rows(b.ledger, Release, id) == (if b.reservations[id].status == Released then 1 else 0)
    ensures NetCharge(b.ledger, id) ==
      (if b.reservations[id].settled.Some? then b.reservations[id].settled.value else 0)
    ensures RowOk(b.reservations[id])
  {
    assert Rows(b.ledger, Reserve, id) == RowsDue(b, Reserve, id);
    assert Rows(b.ledger, Settle, id) == RowsDue(b, Settle, id);
    assert Rows(b.ledger, Release, id) == RowsDue(b, Release, id);
    assert NetCharge(b.ledger, id) == CostOf(b, id);
  }

  ghost predicate EndedOnce(b: Book, later: Book, id: Id)
    requires id in b.reservations
  {
    var row := b.reservations[id];
    && id in later.reservations
    && (row.status != Reserved ==> later.reservations[id] == row)
    && Rows(later.ledger, Reserve, id) == 1
    && Rows(later.ledger, Settle, id) + Rows(later.ledger, Release, id) ==
         (if later.reservations[id].status == Reserved then 0 else 1)
    && NetCharge(later.ledger, id) ==
      (if later.reservations[id].settled.Some? then later.reservations[id].settled.value else 0)
    && 0 <= NetCharge(later.ledger, id) <= row.estimated
  }

  /**
   * A reservation ends at most once and for good: whatever runs after it was seen ended, its row is
   * unchanged, it was charged at most its estimate, and the ledger holds exactly the rows of that one ending.
   */
  lemma EndsOnce(before: seq<Step>, after: seq<Step>, id: Id)
    requires id in Run(EMPTY_BOOK, before).reservations
    ensures EndedOnce(Run(EMPTY_BOOK, before), Run(Run(EMPTY_BOOK, before), after), id)
  {
    RunKeepsInv(EMPTY_BOOK, before);
    EndsOnceFrom(Run(EMPTY_BOOK, before), after, id);
  }

  lemma EndsOnceFrom(b: Book, after: seq<Step>, id: Id)
    requires Inv(b) && id in b.reservations
    ensures EndedOnce(b, Run(b, after), id)
  {
    RunKeepsInv(b, after);
    RunExtends(b, after);
    assert Continues(b.reservations[id], Run(b, after).reservations[id]);
    RowsOfReservation(Run(b, after), id);
  }

  // ----- Retries -----

  /** The same call again: a new UUID and a new request id, everything else as before. */
  predicate SameCall(x: Step, y: Step) {
    match (x, y)
    case (GrantStep(g), GrantStep(h)) => g == h.(requestId := g.requestId)
    case (ReserveStep(r, _), ReserveStep(q, _)) => r == q.(requestId := r.requestId)
    case (SettleStep(s), SettleStep(t)) => s == t.(requestId := s.requestId)
    case (ReleaseStep(r), ReleaseStep(q)) => r == q.(requestId := r.requestId)
    case (AdjustStep(a), AdjustStep(c)) => a == c.(requestId := a.requestId)
    case _ => false
  }

  /** The call has committed in this book or in an earlier one. */
  ghost predicate Committed(b: Book, x: Step) {
    match x
    case GrantStep(g) =>
      var e := EntryByKey(b.ledger, g.key);
      ValidMutation(Grant, Delta(g.credits, 0)) && e.Some? && SameContext(e.value.mutation, GrantMutation(g))
    case ReserveStep(r, _) =>
      && r.credits > 0 && r.key in b.byKey && b.byKey[r.key] in b.reservations
      && SameReserve(b.reservations[b.byKey[r.key]], EntryOf(b.ledger, Reserve, b.byKey[r.key]), r)
    case SettleStep(s) =>
      && s.usage.source == "provider_metering" && !IsBlank(s.usage.usageId)
      && s.reservation in b.reservations && b.reservations[s.reservation].status == Settled
      && SameSettle(EntryOf(b.ledger, Settle, s.reservation), s)
    case ReleaseStep(r) =>
      && r.reservation in b.reservations && b.reservations[r.reservation].status == Released
      && SameRelease(EntryOf(b.ledger, Release, r.reservation), r, b.reservations[r.reservation].estimated)
    case AdjustStep(a) =>
      EntryByKey(b.ledger, AdjustMutation(a).key).Some?
  }

  /** Lookups answer the same after rows are added. */
  lemma {:induction false} LookupsPersist(ledger: seq<Entry>, later: seq<Entry>)
    requires ledger <= later
    ensures forall key :: EntryByKey(ledger, key).Some? ==> EntryByKey(later, key) == EntryByKey(ledger, key)
    ensures forall kind, id :: EntryOf(ledger, kind, id).Some? ==> EntryOf(later, kind, id) == EntryOf(ledger, kind, id)
    decreases |later|
  {
    if ledger != later {
      LookupsPersist(ledger, later[..|later| - 1]);
    }
  }

  lemma HoldCommits(b: Book, r: ReserveInput, newId: Id)
    requires Inv(b) && Hold(b, r, newId).Ok?
    ensures Committed(Hold(b, r, newId).book, ReserveStep(r, newId))
  {
    if Hold(b, r, newId).reply.created {
      HoldShape(b, r, newId);
      OwnRow(b, ReserveMutation(r, newId));
    }
  }

  lemma ChargeCommits(b: Book, s: SettleInput)
    requires Inv(b) && Charge(b, s).Ok?
    ensures Committed(Charge(b, s).book, SettleStep(s))
  {
    if Charge(b, s).reply.created {
      var row := b.reservations[s.reservation];
      OwnRow(b, SettleMutation(s, row.user, PlanSettlement(row.estimated, s.usage.credits).value));
    }
  }

  lemma FreeCommits(b: Book, r: ReleaseInput)
    requires Inv(b) && Free(b, r).Ok?
    ensures Committed(Free(b, r).book, ReleaseStep(r))
  {
    if Free(b, r).reply.created {
      var row := b.reservations[r.reservation];
      OwnRow(b, ReleaseMutation(r, row.user, PlanRelease(row.estimated)));
    }
  }

  lemma AdjustCommits(b: Book, a: AdjustInput)
    requires AdjustBalance(b, a).Ok?
    ensures Committed(AdjustBalance(b, a).book, AdjustStep(a))
  {
    var next := AdjustBalance(b, a).book;
    Appended(b.ledger, next.ledger[|b.ledger|]);
  }

  /** A successful call has committed in the book it produced. */
  lemma SuccessCommits(b: Book, x: Step)
    requires Inv(b) && Exec(b, x).Ok?
    ensures Committed(Next(b, x), x)
  {
    match x
    case GrantStep(g) => MutateCommits(b, GrantMutation(g));
    case ReserveStep(r, newId) => HoldCommits(b, r, newId);
    case SettleStep(s) => ChargeCommits(b, s);
    case ReleaseStep(r) => FreeCommits(b, r);
    case AdjustStep(a) => AdjustCommits(b, a);
  }

  lemma MutateCommits(b: Book, m: Mutation)
    requires Mutate(b, m).Ok?
    ensures var e := EntryByKey(Mutate(b, m).book.ledger, m.key);
      e.Some? && SameContext(e.value.mutation, m)
  {
    var next := Mutate(b, m).book;
    if next.ledger != b.ledger {
      Appended(b.ledger, next.ledger[|b.ledger|]);
    }
  }

  /** A reservation's first row of a kind is the one its own mutation writes. */
  lemma OwnRow(b: Book, m: Mutation)
    requires Inv(b) && m.reservation.Some? && RowsDue(b, m.kind, m.reservation.value) == 0
    requires Mutate(b, m).Ok?
    ensures var e := EntryOf(Mutate(b, m).book.ledger, m.kind, m.reservation.value);
      e.Some? && e.value.mutation == m
  {
    NoRowYet(b, m);
    RowLookup(b.ledger, m.kind, m.reservation.value);
    assert Rows(b.ledger, m.kind, m.reservation.value) == 0;
    Appended(b.ledger, Mutate(b, m).book.ledger[|b.ledger|]);
  }

  /** A committed call stays committed, whatever runs next. */
  lemma StaysCommitted(b: Book, later: Book, x: Step)
    requires Extends(b, later) && Committed(b, x)
    ensures Committed(later, x)
  {
    LookupsPersist(b.ledger, later.ledger);
  }

  /** Repeating a committed call changes nothing; except for adjustments it answers as before. */
  lemma ReplayIsQuiet(b: Book, x: Step, y: Step)
    requires Committed(b, x) && SameCall(x, y)
    ensures Next(b, y) == b
    ensures !x.AdjustStep? ==> Exec(b, y).Ok? && !Exec(b, y).reply.created
  {
  }

  /** Drops every step that repeats a call which has already succeeded. */
  ghost function WithoutRepeats(b: Book, done: seq<Step>, steps: seq<Step>): seq<Step>
    decreases |steps|
  {
    if steps == [] then []
    else if exists i :: 0 <= i < |done| && SameCall(done[i], steps[0]) then WithoutRepeats(b, done, steps[1..])
    else
      [steps[0]] +
      WithoutRepeats(Next(b, steps[0]), if Exec(b, steps[0]).Ok? then done + [steps[0]] else done, steps[1..])
  }

  /** A run ends in the same book as the run from which its retries were removed. */
  lemma {:induction false} RetriesStutter(b: Book, done: seq<Step>, steps: seq<Step>)
    requires Inv(b) && forall i :: 0 <= i < |done| ==> Committed(b, done[i])
    ensures Run(b, WithoutRepeats(b, done, steps)) == Run(b, steps)
    decreases |steps|
  {
    hide Inv, Committed, Exec, Extends, SameCall, IndexOk;
    if steps != [] {
      var s := steps[0];
      if i :| 0 <= i < |done| && SameCall(done[i], s) {
        ReplayIsQuiet(b, done[i], s);
        RetriesStutter(b, done, steps[1..]);
      } else {
        var next := Next(b, s);
        InvExtends(b, s);
        ExecKeepsInv(b, s);
        forall i | 0 <= i < |done| ensures Committed(next, done[i]) {
          StaysCommitted(b, next, done[i]);
        }
        if Exec(b, s).Ok? {
          SuccessCommits(b, s);
          RetriesStutter(next, done + [s], steps[1..]);
        } else {
          RetriesStutter(next, done, steps[1..]);
        }
      }
    }
  }

  // ----- Keys -----

  /** The key of the ledger row a call writes, whatever its kind. */
  function KeyOf(x: Step): string {
    match x
    case GrantStep(g) => g.key
    case ReserveStep(r, _) => r.key + ":ledger"
    case SettleStep(s) => s.key
    case ReleaseStep(r) => r.key
    case AdjustStep(a) => AdjustMutation(a).key
  }

  /** Row `m` records exactly this call. */
  ghost predicate Records(b: Book, m: Mutation, x: Step) {
    match x
    case GrantStep(g) => SameContext(m, GrantMutation(g))
    case ReserveStep(r, _) =>
      && m.kind == Reserve && m.user == r.user && m.delta == Delta(-r.credits, r.credits)
      && m.sourceType == r.sourceType && m.sourceId == r.sourceId && m.actor == r.actor
      && m.reservation.Some? && m.reservation.value in b.reservations
      && var row := b.reservations[m.reservation.value]; row.key == r.key && row.expiresAt == r.expiresAt
    case SettleStep(s) =>
      && m.kind == Settle && m.reservation == Some(s.reservation)
      && m.key == s.key && m.actor == s.actor && m.usage == Some(s.usage)
    case ReleaseStep(r) =>
      m.kind == Release && m.reservation == Some(r.reservation) && m.key == r.key && m.actor == r.actor
    case AdjustStep(a) => SameContext(m, AdjustMutation(a))
  }

  /** The row under the call's key is there, and records this call. */
  ghost predicate Recorded(b: Book, x: Step) {
    var e := EntryByKey(b.ledger, KeyOf(x));
    e.Some? && Records(b, e.value.mutation, x)
  }

  /** Keys are unique, so a row is the one its key looks up. */
  lemma RowOfItsKey(b: Book, e: Entry)
    requires LedgerInv(b) && e in b.ledger
    ensures EntryByKey(b.ledger, e.mutation.key) == Some(e)
  {
    KeyLookup(b.ledger, e.mutation.key);
  }

  lemma ReserveIsRecorded(b: Book, r: ReserveInput, newId: Id)
    requires Inv(b) && Committed(b, ReserveStep(r, newId))
    ensures Recorded(b, ReserveStep(r, newId))
  {
    var id := b.byKey[r.key];
    RowLookup(b.ledger, Reserve, id);
    var e := EntryOf(b.ledger, Reserve, id).value;
    RowOfItsKey(b, e);
    var i :| 0 <= i < |b.ledger| && b.ledger[i] == e;
    assert Documents(b, b.ledger[i].mutation);
  }

  lemma EndingIsRecorded(b: Book, x: Step)
    requires Inv(b) && Committed(b, x) && (x.SettleStep? || x.ReleaseStep?)
    ensures Recorded(b, x)
  {
    var kind, id := if x.SettleStep? then Settle else Release,
                    if x.SettleStep? then x.settle.reservation else x.release.reservation;
    RowLookup(b.ledger, kind, id);
    RowOfItsKey(b, EntryOf(b.ledger, kind, id).value);
  }

  /** A successful call is recorded under its key. */
  lemma SuccessIsRecorded(b: Book, x: Step)
    requires Inv(b) && Exec(b, x).Ok?
    ensures Recorded(Next(b, x), x)
  {
    ExecKeepsInv(b, x);
    SuccessCommits(b, x);
    match x
    case GrantStep(_) =>
    case ReserveStep(r, newId) => ReserveIsRecorded(Next(b, x), r, newId);
    case AdjustStep(a) =>
      var next := AdjustBalance(b, a).book;
      Appended(b.ledger, next.ledger[|b.ledger|]);
    case _ => EndingIsRecorded(Next(b, x), x);
  }

  lemma StaysRecorded(b: Book, later: Book, x: Step)
    requires Extends(b, later) && Recorded(b, x)
    ensures Recorded(later, x) && EntryByKey(later.ledger, KeyOf(x)) == EntryByKey(b.ledger, KeyOf(x))
  {
    LookupsPersist(b.ledger, later.ledger);
  }

  /** Two calls recorded by one row are the same call. */
  lemma OneRowOneCall(b: Book, m: Mutation, x: Step, y: Step)
    requires Records(b, m, x) && Records(b, m, y)
    ensures SameCall(x, y)
  {
  }

  /** No check that comes before the one of the key turns this call away. */
  predicate ReachesKeyCheck(b: Book, y: Step) {
    match y
    case GrantStep(g) => g.credits > 0
    case ReserveStep(r, newId) => r.credits > 0 && (r.key in b.byKey || newId !in b.reservations)
    case SettleStep(s) =>
      && s.usage.source == "provider_metering" && !IsBlank(s.usage.usageId) && s.reservation in b.reservations
      && var row := b.reservations[s.reservation];
         row.status == Settled || (row.status == Reserved && s.usage.credits <= row.estimated)
    case ReleaseStep(r) => r.reservation in b.reservations && b.reservations[r.reservation].status != Settled
    case AdjustStep(_) => false
  }

  lemma SecondUseFails(b: Book, x: Step, y: Step)
    requires Inv(b) && Recorded(b, x) && KeyOf(x) == KeyOf(y) && !SameCall(x, y)
    ensures Exec(b, y).Err?
  {
    if Exec(b, y).Ok? {
      SuccessIsRecorded(b, y);
      ExecExtends(b, y);
      StaysRecorded(b, Next(b, y), x);
      OneRowOneCall(Next(b, y), EntryByKey(Next(b, y).ledger, KeyOf(x)).value.mutation, x, y);
    }
  }

  lemma KeyDecides(b: Book, y: Step)
    requires Inv(b) && EntryByKey(b.ledger, KeyOf(y)).Some? && ReachesKeyCheck(b, y) && Exec(b, y).Err?
    ensures Exec(b, y) == Err(KeyCollision)
  {
    match y
    case SettleStep(s) => assert RowOk(b.reservations[s.reservation]);
    case ReleaseStep(r) => assert RowOk(b.reservations[r.reservation]);
    case _ =>
  }

  /**
   * One key, one call, across all kinds: once a call has succeeded, any other call that would write under its
   * ledger key is refused at any later time and changes nothing, and the key itself is the reason given as soon
   * as the call gets as far as that check.
   */
  lemma ReusedKeyRejected(b: Book, x: Step, after: seq<Step>, y: Step)
    requires Inv(b) && Exec(b, x).Ok? && KeyOf(x) == KeyOf(y) && !SameCall(x, y)
    ensures var later := Run(Next(b, x), after);
      && Exec(later, y).Err? && Next(later, y) == later
      && (ReachesKeyCheck(later, y) ==> Exec(later, y) == Err(KeyCollision))
  {
    var next := Next(b, x);
    var later := Run(next, after);
    ExecKeepsInv(b, x);
    RunKeepsInv(next, after);
    SuccessIsRecorded(b, x);
    RunExtends(next, after);
    StaysRecorded(next, later, x);
    SecondUseFails(later, x, y);
    if ReachesKeyCheck(later, y) {
      KeyDecides(later, y);
    }
  }

  /** A call made again on the same reservation, or under the same key, but with other arguments. */
  predicate SameCallOtherContext(x: Step, y: Step) {
    match (x, y)
    case (GrantStep(g), GrantStep(h)) => g.key == h.key && h.credits > 0 && !SameCall(x, y)
    case (ReserveStep(r, _), ReserveStep(q, _)) => r.key == q.key && q.credits > 0 && !SameCall(x, y)
    case (SettleStep(s), SettleStep(t)) =>
      s.reservation == t.reservation && t.usage.source == "provider_metering" && !IsBlank(t.usage.usageId)
        && !SameCall(x, y)
    case (ReleaseStep(r), ReleaseStep(q)) => r.reservation == q.reservation && !SameCall(x, y)
    case _ => false
  }

  /**
   * Repeated with other arguments, a call is refused as a collision, even for a settlement or release under a new
   * key.
   */
  lemma OtherContextRejected(b: Book, x: Step, after: seq<Step>, y: Step)
    requires Inv(b) && Exec(b, x).Ok? && SameCallOtherContext(x, y)
    ensures Exec(Run(Next(b, x), after), y) == Err(KeyCollision)
  {
    var next := Next(b, x);
    ExecKeepsInv(b, x);
    SuccessCommits(b, x);
    RunExtends(next, after);
    StaysCommitted(next, Run(next, after), x);
  }

  // ----- Progress -----

  lemma {:induction false} HeldIsNonNegative(m: map<Id, Reservation>, user: Id)
    requires forall id :: id in m ==> m[id].estimated > 0
    ensures MapSum(m, HeldBy(user)) >= 0
    decreases |m|
  {
    if m != map[] {
      var k :| k in m;
      MapSumTake(m, k, HeldBy(user));
      assert (m - {k}).Keys == m.Keys - {k};
      HeldIsNonNegative(m - {k}, user);
    }
  }

  /** One open hold never exceeds its account's reserved balance. */
  lemma HoldIsCovered(b: Book, id: Id)
    requires SumsInv(b) && RowsInv(b) && id in b.reservations && b.reservations[id].status == Reserved
    ensures b.reservations[id].estimated <= AccountOf(b, b.reservations[id].user).balance.reserved
  {
    var user := b.reservations[id].user;
    MapSumTake(b.reservations, id, HeldBy(user));
    HeldIsNonNegative(b.reservations - {id}, user);
    assert MapSum(b.reservations, HeldBy(user)) == AccountOf(b, user).balance.reserved;
  }

  /** An open hold has no settle or release row, so no source constraint stands in the way of ending it. */
  lemma NoEndingYet(b: Book, m: Mutation, id: Id)
    requires RowsInv(b) && id in b.reservations && b.reservations[id].status == Reserved
    requires m.kind in {Settle, Release} && m.sourceType == RESERVATION_SOURCE && m.sourceId == id
    ensures !SourceTaken(b.ledger, m)
  {
    assert Rows(b.ledger, m.kind, id) == RowsDue(b, m.kind, id);
    forall i | 0 <= i < |b.ledger| ensures !SameSource(b.ledger[i].mutation, m) {
      assert Documents(b, b.ledger[i].mutation);
      NoRows(b.ledger, m.kind, id, b.ledger[i]);
    }
  }

  /** An open hold can always be released in full under an unused key. */
  lemma OpenHoldCanBeFreed(b: Book, r: ReleaseInput)
    requires Inv(b) && r.reservation in b.reservations && b.reservations[r.reservation].status == Reserved
    requires EntryByKey(b.ledger, r.key) == None
    ensures Free(b, r).Ok? && Free(b, r).reply == Freed(r.reservation, true)
    ensures var row := b.reservations[r.reservation];
      var was, now := AccountOf(b, row.user).balance, AccountOf(Free(b, r).book, row.user).balance;
      now == Balance(was.available + row.estimated, was.reserved - row.estimated)
  {
    var row := b.reservations[r.reservation];
    HoldIsCovered(b, r.reservation);
    NoEndingYet(b, ReleaseMutation(r, row.user, PlanRelease(row.estimated)), r.reservation);
    assert Agrees(AccountOf(b, row.user), Tally(b.ledger, row.user));
  }

  /** Reliable usage within the estimate always settles, refunding exactly the unused part. */
  lemma OpenHoldCanBeCharged(b: Book, s: SettleInput)
    requires Inv(b) && s.reservation in b.reservations && b.reservations[s.reservation].status == Reserved
    requires s.usage.source == "provider_metering" && !IsBlank(s.usage.usageId)
    requires EntryByKey(b.ledger, s.key) == None
    ensures Charge(b, s).Ok? <==> s.usage.credits <= b.reservations[s.reservation].estimated
    ensures Charge(b, s).Ok? ==>
      && Charge(b, s).reply == Charged(s.reservation, s.usage.credits, true)
      && var row := b.reservations[s.reservation];
      && var was, now := AccountOf(b, row.user).balance, AccountOf(Charge(b, s).book, row.user).balance;
      && now == Balance(was.available + row.estimated - s.usage.credits, was.reserved - row.estimated)
  {
    var row := b.reservations[s.reservation];
    HoldIsCovered(b, s.reservation);
    assert RowOk(row);
    if s.usage.credits <= row.estimated {
      NoEndingYet(b, SettleMutation(s, row.user, PlanSettlement(row.estimated, s.usage.credits).value), s.reservation);
    }
    assert Agrees(AccountOf(b, row.user), Tally(b.ledger, row.user));
  }

  // ----- What a first-time call writes -----

  lemma HoldEffect(b: Book, r: ReserveInput, newId: Id)
    requires Inv(b) && Hold(b, r, newId).Ok? && r.key !in b.byKey
    ensures var next := Hold(b, r, newId).book;
      && Hold(b, r, newId).reply == Held(newId, true) && newId !in b.reservations
      && next.reservations == b.reservations[newId := Reservation(r.user, r.credits, None, Reserved, r.key,
                                                                  r.expiresAt)]
      && next.byKey == b.byKey[r.key := newId]
      && |next.ledger| == |b.ledger| + 1 && next.ledger[..|b.ledger|] == b.ledger
      && next.ledger[|b.ledger|].mutation == ReserveMutation(r, newId)
  {
    var row := Reservation(r.user, r.credits, None, Reserved, r.key, r.expiresAt);
    assert Mutate(b, ReserveMutation(r, newId)).Ok?;
    NoRowYet(b, ReserveMutation(r, newId));
  }

  lemma ChargeEffect(b: Book, s: SettleInput)
    requires Inv(b) && Charge(b, s).Ok?
    requires s.reservation in b.reservations && b.reservations[s.reservation].status == Reserved
    ensures var next := Charge(b, s).book;
      && next.reservations ==
           b.reservations[s.reservation := b.reservations[s.reservation].(status := Settled,
               settled := Some(s.usage.credits))]
      && next.byKey == b.byKey
      && |next.ledger| == |b.ledger| + 1 && next.ledger[..|b.ledger|] == b.ledger
      && next.ledger[|b.ledger|].mutation.key == s.key
      && next.ledger[|b.ledger|].mutation.reservation == Some(s.reservation)
  {
    var row := b.reservations[s.reservation];
    NoRowYet(b, SettleMutation(s, row.user, PlanSettlement(row.estimated, s.usage.credits).value));
  }

  lemma FreeEffect(b: Book, r: ReleaseInput)
    requires Inv(b) && Free(b, r).Ok?
    requires r.reservation in b.reservations && b.reservations[r.reservation].status == Reserved
    ensures var next := Free(b, r).book;
      && next.reservations == b.reservations[r.reservation := b.reservations[r.reservation].(status := Released)]
      && next.byKey == b.byKey
      && |next.ledger| == |b.ledger| + 1 && next.ledger[..|b.ledger|] == b.ledger
      && next.ledger[|b.ledger|].mutation.key == r.key
      && next.ledger[|b.ledger|].mutation.reservation == Some(r.reservation)
  {
    var row := b.reservations[r.reservation];
    NoRowYet(b, ReleaseMutation(r, row.user, PlanRelease(row.estimated)));
  }
}
