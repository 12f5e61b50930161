/** Which inference calls are carried out, and which are turned away. */
module InferenceGuards {
  import opened Common
  import opened Inference
  import opened InferenceLaws
  import C = Credits
  import CL = CreditLaws
  import CA = CreditAnswers

  // ----- Identifiers -----

  predicate IsHexText(s: string) {
    forall i :: 0 <= i < |s| ==> IsHex(s[i])
  }

  /** Five groups of 8, 4, 4, 4 and 12 hexadecimal digits, joined by hyphens, of version 1 to 8 and variant 8 to b. */
  predicate IsGrouped(s: string) {
    && |s| == 36 && s[8] == '-' && s[13] == '-' && s[18] == '-' && s[23] == '-'
    && IsHexText(s[..8]) && IsHexText(s[9..13]) && IsHexText(s[14..18]) && IsHexText(s[19..23]) && IsHexText(s[24..])
    && (s[14] == '1' || '2' <= s[14] <= '8')
    && (s[19] == '8' || s[19] == '9' || s[19] == 'a' || s[19] == 'b' || s[19] == 'A' || s[19] == 'B')
  }

  lemma UuidIff(s: string)
    ensures IsUuid(s) <==> IsGrouped(s)
  {
    if IsGrouped(s) {
      forall i | 0 <= i < 36 ensures if i in {8, 13, 18, 23} then s[i] == '-' else IsHex(s[i]) {
        assert i < 8 ==> s[i] == s[..8][i];
        assert 9 <= i < 13 ==> s[i] == s[9..13][i - 9];
        assert 14 <= i < 18 ==> s[i] == s[14..18][i - 14];
        assert 19 <= i < 23 ==> s[i] == s[19..23][i - 19];
        assert 24 <= i ==> s[i] == s[24..][i - 24];
      }
    }
  }

  // ----- Beginning -----

  predicate BeginWellFormed(x: BeginInput) {
    && 8 <= |x.key| <= 128 && (forall i :: 0 <= i < |x.key| ==> IsAlnum(x.key[i]) || x.key[i] in "._:-")
    && !IsBlank(x.model) && |x.model| <= 160 && x.estimated > 0
  }

  /** No row of the ledger is under the reserve key of a request that does not exist yet. */
  lemma ReserveKeyUnused(d: Desk, id: Id)
    requires KeysInv(d) && id !in d.requests
    ensures C.EntryByKey(d.book.ledger, ReserveKey(id) + ":ledger").None?
  {
    var key := ReserveKey(id) + ":ledger";
    CL.KeyLookup(d.book.ledger, key);
    LedgerKeyShape(id);
    var found := C.EntryByKey(d.book.ledger, key);
    if found.Some? {
      var m := found.value.mutation;
      assert "client-ai:" <= key;
      assert OwnedKey(d, m);
      var owner :| owner in d.requests && IsKeyOf(owner, m.key);
      OwnerIsId(owner, id);
      assert false;
    }
  }

  lemma OwnerIsId(owner: Id, id: Id)
    requires IsKeyOf(owner, Key(id, LEDGER_SUFFIX))
    ensures owner == id
  {
    KeysIdentify(owner, LEDGER_SUFFIX, id, LEDGER_SUFFIX);
    KeysIdentify(owner, ":settle", id, LEDGER_SUFFIX);
    KeysIdentify(owner, ":release", id, LEDGER_SUFFIX);
    KeysIdentify(owner, ":cancel-release", id, LEDGER_SUFFIX);
    KeysIdentify(owner, ":stale-release", id, LEDGER_SUFFIX);
  }

  /** The hold of a new request: its estimate, for ten minutes. */
  function HoldOf(x: BeginInput, id: Id, now: int): C.ReserveInput {
    C.ReserveInput(x.user, x.estimated, "client_ai_inference", id, Key(id, ":reserve"), x.requestId, now + 600000, None)
  }

  predicate Unseen(d: Desk, x: BeginInput, newId: Id, newReservation: Id, now: int) {
    && (x.user, x.operation, x.key) !in d.byKey && newId !in d.requests && newReservation !in d.book.reservations
    && !C.SourceTaken(d.book.ledger, C.ReserveMutation(HoldOf(x, newId, now), newReservation))
  }

  /**
   * In every reachable desk, with new identifiers, a first begin is started exactly if it is well formed and the
   * customer has the estimate available. Then the estimate is held for ten minutes and the request is processing.
   */
  lemma StartedIff(steps: seq<Step>, x: BeginInput, newId: Id, newReservation: Id, now: int)
    requires Unseen(Run(EMPTY_DESK, steps), x, newId, newReservation, now)
    ensures var d := Run(EMPTY_DESK, steps);
      var out, available := Begin(d, x, newId, newReservation, now), C.AccountOf(d.book, x.user).balance.available;
      && (out.reply.Started? <==> BeginWellFormed(x) && x.estimated <= available)
      && (!out.reply.Started? ==> out.desk == d && out.reply.Rejected?)
      && (BeginWellFormed(x) && x.estimated > available ==> out.reply == Rejected(CreditsInsufficient))
      && (out.reply.Started? ==> IsStarted(d, out, x, newId, newReservation, now))
  {
    hide Run, Begin, Inv;
    var d := Run(EMPTY_DESK, steps);
    EmptyDeskInv();
    RunKeepsInv(EMPTY_DESK, steps);
    BeginStartsIff(d, x, newId, newReservation, now);
  }

  predicate IsStarted(d: Desk, out: Outcome, x: BeginInput, newId: Id, newReservation: Id, now: int) {
    && out.reply == Started(newId, newReservation)
    && out.desk.requests == d.requests[newId :=
         Request(x.user, x.operation, x.key, x.payloadHash, x.model, Processing, Some(newReservation), None, None,
                 None)]
    && out.desk.byKey == d.byKey[(x.user, x.operation, x.key) := newId]
    && out.desk.book.reservations == d.book.reservations[newReservation :=
         C.Reservation(x.user, x.estimated, None, C.Reserved, Key(newId, ":reserve"), now + 600000)]
    && var was, left := C.AccountOf(d.book, x.user).balance, C.AccountOf(out.desk.book, x.user).balance;
       left == C.Balance(was.available - x.estimated, was.reserved + x.estimated)
  }

  /** A first begin, once what became of its hold is known. */
  lemma BeginIsHold(d: Desk, x: BeginInput, newId: Id, newReservation: Id, now: int)
    requires (x.user, x.operation, x.key) !in d.byKey && newId !in d.requests
    requires var held := C.Hold(d.book, HoldOf(x, newId, now), newReservation);
      held.Ok? ==> held.reply == C.Held(newReservation, true)
    ensures var out, held := Begin(d, x, newId, newReservation, now),
      C.Hold(d.book, HoldOf(x, newId, now), newReservation);
      if !BeginWellFormed(x) then out.desk == d && out.reply.Rejected?
      else match held
        case Err(e) => out == Reject(d, if e == C.Insufficient then CreditsInsufficient else Credit(e))
        case Ok(book, _) =>
          out == Outcome(Desk(book, d.requests[newId := Request(x.user, x.operation, x.key, x.payloadHash, x.model,
                                                                Processing, Some(newReservation), None, None, None)],
                              d.byKey[(x.user, x.operation, x.key) := newId]),
                         Started(newId, newReservation))
  {
    hide C.Hold;
    assert HoldInput(x, newId, now) == HoldOf(x, newId, now);
  }

  /** What becomes of that hold. */
  lemma HoldFits(d: Desk, x: BeginInput, newId: Id, newReservation: Id, now: int)
    requires Inv(d) && Unseen(d, x, newId, newReservation, now)
    ensures var held, was := C.Hold(d.book, HoldOf(x, newId, now), newReservation), C.AccountOf(d.book, x.user).balance;
      && (held.Ok? <==> 0 < x.estimated <= was.available)
      && (held.Err? ==> held.error == if x.estimated <= 0 then C.AmountInvalid else C.Insufficient)
      && (held.Ok? ==>
            && held.reply == C.Held(newReservation, true)
            && C.AccountOf(held.book, x.user).balance ==
               C.Balance(was.available - x.estimated, was.reserved + x.estimated)
            && held.book.reservations == d.book.reservations[newReservation :=
                 C.Reservation(x.user, x.estimated, None, C.Reserved, Key(newId, ":reserve"), now + 600000)])
  {
    hide HoldsInv, CL.Inv, C.Hold, C.SourceTaken, C.EntryByKey, RequestsInv, IndexInv, UsageInv, KeysInv, Key;
    HoldKeysUnused(d, newId);
    CA.HoldAcceptedIff(d.book, HoldOf(x, newId, now), newReservation);
  }

  lemma HoldKeysUnused(d: Desk, newId: Id)
    requires HoldsInv(d) && KeysInv(d) && newId !in d.requests
    ensures Key(newId, ":reserve") !in d.book.byKey
    ensures C.EntryByKey(d.book.ledger, Key(newId, ":reserve") + ":ledger").None?
  {
    hide KeysInv;
    assert ReserveKey(newId) !in d.book.byKey;
    ReserveKeyUnused(d, newId);
  }

  lemma BeginStartsIff(d: Desk, x: BeginInput, newId: Id, newReservation: Id, now: int)
    requires Inv(d) && Unseen(d, x, newId, newReservation, now)
    ensures var out, available := Begin(d, x, newId, newReservation, now),
      C.AccountOf(d.book, x.user).balance.available;
      && (out.reply.Started? <==> BeginWellFormed(x) && x.estimated <= available)
      && (!out.reply.Started? ==> out.desk == d && out.reply.Rejected?)
      && (BeginWellFormed(x) && x.estimated > available ==> out.reply == Rejected(CreditsInsufficient))
      && (out.reply.Started? ==> IsStarted(d, out, x, newId, newReservation, now))
  {
    hide Begin, Inv, C.Hold, C.SourceTaken, Key, HoldOf;
    HoldFits(d, x, newId, newReservation, now);
    BeginIsHold(d, x, newId, newReservation, now);
  }

  // ----- Completing -----

  /** A completion that is carried out was well formed, and its cost within the estimate. */
  lemma CompletedOnlyIf(d: Desk, x: CompleteInput)
    requires Inv(d) && Complete(d, x).desk != d
    ensures WellFormed(d, x) && x.reservation in d.book.reservations
    ensures 0 <= x.credits <= d.book.reservations[x.reservation].estimated
  {
    CompleteWellFormed(d, x);
    CompleteShape(d, x);
    assert RequestOk(d, x.request);
    hide Inv, CL.Inv, C.Charge, Complete;
    CA.ChargedOnlyIf(d.book, SettleOf(x));
  }

  lemma CompleteWellFormed(d: Desk, x: CompleteInput)
    requires Complete(d, x).desk != d
    ensures WellFormed(d, x)
  {
    hide C.Charge, ProviderRequestTaken, SettleOf, Replay;
  }

  /** So in every reachable desk a completion changes anything if and only if it is well formed and affordable. */
  lemma CarriedOutIff(steps: seq<Step>, x: CompleteInput)
    ensures var d := Run(EMPTY_DESK, steps);
      Complete(d, x).desk != d <==>
        && WellFormed(d, x) && x.reservation in d.book.reservations
        && x.credits <= d.book.reservations[x.reservation].estimated
  {
    hide Run, Complete, WellFormed, Inv;
    var d := Run(EMPTY_DESK, steps);
    EmptyDeskInv();
    RunKeepsInv(EMPTY_DESK, steps);
    if Complete(d, x).desk != d {
      CompletedOnlyIf(d, x);
    }
    if WellFormed(d, x) {
      CompletionCharges(d, x);
      if Complete(d, x).reply == Completed(x.result) {
        SuccessChanges(d, x);
      }
    }
  }

  lemma SuccessChanges(d: Desk, x: CompleteInput)
    requires WellFormed(d, x) && Complete(d, x).reply == Completed(x.result)
    ensures Complete(d, x).desk != d
  {
    hide C.Charge, ProviderRequestTaken, SettleOf;
    assert d.requests[x.request].status == Processing;
  }

  // ----- Failing, cancelling, reading -----

  /** A failure is recorded only for a processing request of the caller's, and only if it is a well-formed failure. */
  lemma FailedOnlyIf(d: Desk, x: FailInput)
    requires Fail(d, x).reply == FailRecorded(true)
    ensures Owns(d, x.request, x.reservation, x.key) && d.requests[x.request].status == Processing
    ensures Trim(x.code) != "" && Trim(x.message) != "" && 400 <= x.status <= 599
  {
    hide C.Free;
  }

  /** Nobody but its owner can cancel a request, or learn anything of it by trying. */
  lemma OthersCannotCancel(d: Desk, user: Id, requested: Id, requestId: string)
    requires Trim(requested) in d.requests ==> d.requests[Trim(requested)].user != user
    ensures Cancel(d, user, requested, requestId) == Outcome(d, Rejected(RequestNotFound))
  {
  }

  /** A key under which nothing was begun has nothing stored; one with another payload is a collision. */
  lemma UnknownReads(d: Desk, x: ReadInput, now: int)
    requires 8 <= |x.key| <= 128 && (forall i :: 0 <= i < |x.key| ==> IsAlnum(x.key[i]) || x.key[i] in "._:-")
    ensures (x.user, x.operation, x.key) !in d.byKey ==> ReadReplay(d, x, now) == Outcome(d, NothingStored)
    ensures (x.user, x.operation, x.key) in d.byKey ==>
      var id := d.byKey[(x.user, x.operation, x.key)];
      id in d.requests && d.requests[id].payloadHash != x.payloadHash ==>
        ReadReplay(d, x, now) == Outcome(d, Rejected(KeyCollision))
  {
  }

  /** A malformed key is refused before anything else. */
  lemma MalformedKeysAreRefused(d: Desk, x: ReadInput, now: int)
    requires !(8 <= |x.key| <= 128) || exists i :: 0 <= i < |x.key| && !IsAlnum(x.key[i]) && x.key[i] !in "._:-"
    ensures ReadReplay(d, x, now) == Outcome(d, Rejected(IdempotencyKeyRequired))
  {
    if 8 <= |x.key| <= 128 {
      var i :| 0 <= i < |x.key| && !IsAlnum(x.key[i]) && x.key[i] !in "._:-";
      assert !IsKeyChar(x.key[i]);
    }
    hide Reconcile;
  }

  /** Reconciliation leaves everything alone until the hold has expired. */
  lemma NothingBeforeExpiry(d: Desk, id: Id, now: int, requestId: string)
    requires Joined(d, id) && now < d.book.reservations[d.requests[id].reservation.value].expiresAt
    ensures Reconcile(d, id, now, requestId) == Outcome(d, Unchanged)
  {
  }
}
