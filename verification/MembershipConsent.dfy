/** Accepting the legal documents over whole runs: what the answer stands for, and the trial that starts with it. */
module MembershipConsent {
  import opened Common
  import opened Idempotency
  import opened Membership
  import opened MembershipLaws
  import opened MembershipRuns
  import C = Credits
  import D = Disclosure
  import L = Ledger
  import Texts

  predicate Accepted(board: D.Board, user: Id, documents: seq<Id>) {
    forall k :: 0 <= k < |documents| ==> (user, documents[k]) in board.acceptances
  }

  /** A record that answers an acceptance stands for documents that this user has accepted. */
  ghost predicate Earned(env: Env, board: D.Board, r: Record<Reply>) {
    exists y: AcceptInput :: r.descriptor == AcceptDescriptor(env, y) && Accepted(board, y.user, y.documents)
  }

  ghost predicate AnswersEarned(env: Env, s: Shop) {
    forall slot :: slot in s.records && slot.0 == LegalAccept && s.records[slot].response.Some? ==>
      Earned(env, s.board, s.records[slot])
  }

  // ----- One step -----

  /** Acceptances are never taken back, and no acceptance is answered that was not before. */
  predicate NoNewAnswers(s: Shop, after: Shop) {
    && s.board.acceptances <= after.board.acceptances
    && forall slot :: slot in after.records && slot.0 == LegalAccept && after.records[slot].response.Some? ==>
         slot in s.records && s.records[slot] == after.records[slot]
  }

  lemma NoNewAnswersKeeps(env: Env, s: Shop, after: Shop)
    requires AnswersEarned(env, s) && NoNewAnswers(s, after)
    ensures AnswersEarned(env, after)
  {
    forall slot | slot in after.records && slot.0 == LegalAccept && after.records[slot].response.Some?
      ensures Earned(env, after.board, after.records[slot])
    {
      assert Earned(env, s.board, s.records[slot]);
    }
  }

  /** A claim completes its own record only. */
  lemma ClaimedAnswersNone(s: Shop, d: Descriptor, work: Outcome)
    requires d.operation != LegalAccept && Claimed(s, d, work).Ok?
    requires work.Ok? ==> s.board.acceptances <= work.shop.board.acceptances
    ensures NoNewAnswers(s, Claimed(s, d, work).shop)
  {
  }

  lemma DecisionAnswersNone(env: Env, s: Shop, x: DecideInput, ids: NewIds, now: int)
    ensures NoNewAnswers(s, Next(env, s, DecideStep(x, ids, now)))
  {
    hide Next, Judge, NoNewAnswers;
    NextDecide(env, s, x, ids, now);
    AnswersStay(s);
    if DecideOrder(env, s, x, ids, now).Ok? {
      var order := s.orders[x.order];
      var work := Judge(env, s, x, order, ids, now);
      JudgeKeepsBoard(env, s, x, ids, now);
      ClaimedAnswersNone(s, DecideDescriptor(env, x, order), work);
    }
  }

  lemma AnswersStay(s: Shop)
    ensures NoNewAnswers(s, s)
  {
  }

  lemma JudgeKeepsBoard(env: Env, s: Shop, x: DecideInput, ids: NewIds, now: int)
    requires x.order in s.orders
    ensures var work := Judge(env, s, x, s.orders[x.order], ids, now); work.Ok? ==> work.shop.board == s.board
  {
    hide Entitle, PostPurchase, EvidenceMatches;
    if Judge(env, s, x, s.orders[x.order], ids, now).Ok? && x.approve {
      assert Judged(s, x);
      ApproveActivates(env, s, x, ids, now);
    }
  }

  lemma CreationAnswersNone(env: Env, s: Shop, x: CreateInput, newId: Id, now: int)
    ensures NoNewAnswers(s, Next(env, s, CreateStep(x, newId, now)))
  {
    hide Next, D.ConfigurationComplete, D.SuppliesCurrent, D.CurrentIds, NoNewAnswers, Claimed;
    NextCreate(env, s, x, newId, now);
    AnswersStay(s);
    if CreateOrder(env, s, x, newId, now).Ok? {
      ClaimedAnswersNone(s, CreateDescriptor(env, x), NewOrder(env, s, x, newId, now));
    }
  }

  lemma EvidenceAnswersNone(env: Env, s: Shop, x: EvidenceInput, newId: Id, now: int)
    ensures NoNewAnswers(s, Next(env, s, EvidenceStep(x, newId, now)))
  {
    hide Next, EvidenceRow, NoNewAnswers, Claimed;
    NextEvidence(env, s, x, newId, now);
    AnswersStay(s);
    if RecordEvidence(env, s, x, newId, now).Ok? {
      var order := s.orders[x.order];
      ClaimedAnswersNone(s, EvidenceDescriptor(env, x, order.user), KeepEvidence(s, EvidenceRow(env, x), order, newId));
    }
  }

  lemma SubmissionAnswersNone(env: Env, s: Shop, x: SubmitInput)
    ensures NoNewAnswers(s, Next(env, s, SubmitStep(x)))
  {
    hide Next, HasEvidence, NoNewAnswers, Claimed;
    NextSubmit(env, s, x);
    AnswersStay(s);
    if SubmitOrder(env, s, x).Ok? {
      var order := s.orders[x.order];
      ClaimedAnswersNone(s, SubmitDescriptor(env, x, order.user), MarkSubmitted(s, x, order));
    }
  }

  lemma PaymentAnswersNone(env: Env, s: Shop, x: PayInput, ids: PayIds, now: int)
    ensures NoNewAnswers(s, Next(env, s, PayStep(x, ids, now)))
  {
    hide Next, PayOrder, EntitlePaid, PostPayment;
    NextPay(env, s, x, ids, now);
    if PayOrder(env, s, x, ids, now).Ok? {
      PaymentActivates(env, s, x, ids, now);
    }
  }

  lemma BoardKeepsAcceptances(d: D.Digests, b: D.Board, step: D.Step)
    ensures b.acceptances <= D.Next(d, b, step).acceptances
  {
    hide D.CurrentIds, D.ConfigurationComplete, D.SuppliesCurrent;
  }

  lemma OthersAnswerNone(env: Env, s: Shop, step: Step)
    requires !step.AcceptStep?
    ensures NoNewAnswers(s, Next(env, s, step))
  {
    hide Exec, D.Next, L.Next, C.Next;
    match step
    case CreateStep(x, newId, now) => CreationAnswersNone(env, s, x, newId, now);
    case EvidenceStep(x, newId, now) => EvidenceAnswersNone(env, s, x, newId, now);
    case SubmitStep(x) => SubmissionAnswersNone(env, s, x);
    case DecideStep(x, ids, now) => DecisionAnswersNone(env, s, x, ids, now);
    case PayStep(x, ids, now) => PaymentAnswersNone(env, s, x, ids, now);
    case DisclosureStep(d) => BoardKeepsAcceptances(env.digests, s.board, d);
    case _ =>
  }

  lemma ClaimedRecords(s: Shop, d: Descriptor, work: Outcome)
    requires Claimed(s, d, work).Ok? && Claimed(s, d, work).shop != s
    ensures work.Ok? && Claimed(s, d, work).shop.board == work.shop.board
    ensures forall slot :: slot in Claimed(s, d, work).shop.records ==>
      var r := Claimed(s, d, work).shop.records[slot];
      r.descriptor == d || (slot in s.records && s.records[slot] == r)
  {
  }

  /** An acceptance that is carried out under its key leaves a record that stands for its documents. */
  lemma AcceptanceAnswers(env: Env, s: Shop, x: AcceptInput, now: int)
    requires AnswersEarned(env, s)
    ensures AnswersEarned(env, Next(env, s, AcceptStep(x, now)))
  {
    hide Next, D.ConfigurationComplete, D.ConsentComplete, D.SuppliesCurrent, D.CurrentIds, D.RecordAcceptances,
      ActivateTrial,
      Claimed, AcceptDescriptor, Accepted;
    NextAccept(env, s, x, now);
    var after := Next(env, s, AcceptStep(x, now));
    if after.records == s.records {
      GrownBoardEarns(env, s, x, now);
    } else {
      var d, work := AcceptDescriptor(env, x), RecordConsent(env, s, x, now);
      ClaimedRecords(s, d, work);
      CurrentAccepted(s.board, x, now);
      forall slot | slot in after.records && slot.0 == LegalAccept && after.records[slot].response.Some?
        ensures Earned(env, after.board, after.records[slot])
      {
        if after.records[slot].descriptor != d {
          assert Earned(env, s.board, s.records[slot]);
          StaysEarned(env, s.board, x, now, s.records[slot]);
        }
      }
    }
  }

  lemma StaysEarned(env: Env, board: D.Board, x: AcceptInput, now: int, r: Record<Reply>)
    requires Earned(env, board, r)
    ensures Earned(env, D.RecordAcceptances(board, x.user, now), r)
  {
    hide AcceptDescriptor, D.CurrentIds;
    var y :| r.descriptor == AcceptDescriptor(env, y) && Accepted(board, y.user, y.documents);
    assert Accepted(D.RecordAcceptances(board, x.user, now), y.user, y.documents);
  }

  lemma GrownBoardEarns(env: Env, s: Shop, x: AcceptInput, now: int)
    requires AnswersEarned(env, s) && Next(env, s, AcceptStep(x, now)).records == s.records
    ensures AnswersEarned(env, Next(env, s, AcceptStep(x, now)))
  {
    hide Next, D.ConfigurationComplete, D.ConsentComplete, D.SuppliesCurrent, D.CurrentIds, ActivateTrial,
      AcceptDescriptor,
      Earned;
    NextAccept(env, s, x, now);
    assert Next(env, s, AcceptStep(x, now)).board == s.board;
  }

  lemma CurrentAccepted(board: D.Board, x: AcceptInput, now: int)
    requires D.SuppliesCurrent(board, now, x.documents)
    ensures Accepted(D.RecordAcceptances(board, x.user, now), x.user, x.documents)
  {
    forall k | 0 <= k < |x.documents| ensures x.documents[k] in D.CurrentIds(board, now) {
      assert x.documents[k] in (set id | id in x.documents);
    }
  }

  // ----- Every run -----

  lemma {:induction false} RunAnswers(env: Env, s: Shop, steps: seq<Step>)
    requires AnswersEarned(env, s)
    ensures AnswersEarned(env, Run(env, s, steps))
    decreases |steps|
  {
    hide Next, AnswersEarned;
    if steps != [] {
      if steps[0].AcceptStep? {
        AcceptanceAnswers(env, s, steps[0].accept, steps[0].acceptedAt);
      } else {
        OthersAnswerNone(env, s, steps[0]);
        NoNewAnswersKeeps(env, s, Next(env, s, steps[0]));
      }
      RunAnswers(env, Next(env, s, steps[0]), steps[1..]);
    }
  }

  /** Different lists of documents have different hashes. */
  ghost predicate CollisionFree(env: Env) {
    forall a, b: seq<Id> :: env.payloadHash(AcceptPayload(a)) == env.payloadHash(AcceptPayload(b)) ==> a == b
  }

  /** So while something is owed, an acceptance of the current documents is not answered from a record. */
  lemma NotAnsweredWhileOwed(env: Env, s: Shop, x: AcceptInput, now: int)
    requires AnswersEarned(env, s) && CollisionFree(env)
    requires D.ConfigurationComplete(env.digests, s.board.documents, now)
    requires D.SuppliesCurrent(s.board, now, x.documents) && !D.ConsentComplete(env.digests, s.board, x.user, now)
    ensures !ClaimKey(s.records, AcceptDescriptor(env, x)).Replay?
  {
    var d := AcceptDescriptor(env, x);
    if ClaimKey(s.records, d).Replay? {
      assert Slot(d) in s.records && Earned(env, s.board, s.records[Slot(d)]);
      var y :| d == AcceptDescriptor(env, y) && Accepted(s.board, y.user, y.documents);
      assert Texts.SortedSet(y.documents) == Texts.SortedSet(x.documents) && y.user == x.user;
      AcceptedCompletes(env, s.board, x, y.documents, now);
      assert false;
    }
  }

  lemma AcceptedCompletes(env: Env, board: D.Board, x: AcceptInput, documents: seq<Id>, now: int)
    requires D.ConfigurationComplete(env.digests, board.documents, now) && D.SuppliesCurrent(board, now, x.documents)
    requires Accepted(board, x.user, documents) && Texts.SortedSet(documents) == Texts.SortedSet(x.documents)
    ensures D.ConsentComplete(env.digests, board, x.user, now)
  {
    hide D.ConfigurationComplete;
    var rows := D.CurrentDocuments(board.documents, now);
    forall i | 0 <= i < |rows| ensures (x.user, rows[i].id) in board.acceptances {
      assert rows[i].id in D.CurrentIds(board, now);
      assert rows[i].id in (set id | id in x.documents);
      assert rows[i].id in Texts.SortedSet(x.documents);
      assert rows[i].id in documents;
    }
  }

  /**
   * Accepting the documents, whenever it succeeds and whatever happened before, completes the user's consent and
   * starts a waiting trial for three days; it leaves no trial waiting and touches nobody else's membership.
   */
  lemma ConsentStartsTrial(env: Env, board: D.Board, memberships: seq<Membership>, accounts: map<Id, L.Account>,
                           steps: seq<Step>, x: AcceptInput, now: int)
    requires CollisionFree(env)
    requires AcceptDocuments(env, Later(env, board, memberships, accounts, steps), x, now).Ok?
    ensures var s := Later(env, board, memberships, accounts, steps);
      var after := AcceptDocuments(env, s, x, now).shop;
      && D.ConsentComplete(env.digests, after.board, x.user, now)
      && AcceptDocuments(env, s, x, now).reply == Consent(true)
      && Some(after.memberships) == ActivateTrial(s.memberships, x.user, now)
      && forall i :: 0 <= i < |after.memberships| ==> !IsPendingTrial(after.memberships[i], x.user)
  {
    hide Next, CollisionFree;
    var s := Later(env, board, memberships, accounts, steps);
    RunAnswers(env, Opening(board, memberships, accounts), steps);
    if !D.ConsentComplete(env.digests, s.board, x.user, now) {
      NotAnsweredWhileOwed(env, s, x, now);
    }
    ConsentCarriedOut(env, s, x, now);
    TrialGone(s.memberships, x.user, now);
  }

  lemma ConsentCarriedOut(env: Env, s: Shop, x: AcceptInput, now: int)
    requires AcceptDocuments(env, s, x, now).Ok?
    requires D.ConsentComplete(env.digests, s.board, x.user, now)
      || !ClaimKey(s.records, AcceptDescriptor(env, x)).Replay?
    ensures var after := AcceptDocuments(env, s, x, now).shop;
      && D.ConsentComplete(env.digests, after.board, x.user, now)
      && AcceptDocuments(env, s, x, now).reply == Consent(true)
      && Some(after.memberships) == ActivateTrial(s.memberships, x.user, now)
  {
    hide D.SuppliesCurrent, D.RecordAcceptances, D.ConsentComplete, ActivateTrial, AcceptDescriptor;
    ConsentGiven(env, s, x, now);
  }

  lemma ConsentGiven(env: Env, s: Shop, x: AcceptInput, now: int)
    requires D.ConfigurationComplete(env.digests, s.board.documents, now)
    ensures D.ConsentComplete(env.digests, D.RecordAcceptances(s.board, x.user, now), x.user, now)
  {
    var rows := D.CurrentDocuments(s.board.documents, now);
    forall i | 0 <= i < |rows| ensures rows[i].id in D.CurrentIds(s.board, now) {
    }
  }

  /**
   * Under an unused key, exactly the documents in force must be named, the configuration must be complete, and at
   * most one trial may be waiting.
   */
  lemma AcceptedIff(env: Env, s: Shop, x: AcceptInput, now: int)
    requires (LegalAccept, x.key) !in s.records
    ensures AcceptDocuments(env, s, x, now).Ok? <==>
      && D.ConfigurationComplete(env.digests, s.board.documents, now)
      && (forall id :: id in x.documents <==> id in D.CurrentIds(s.board, now))
      && |TrialsOf(s.memberships, x.user)| <= 1
  {
    hide D.ConfigurationComplete, D.ConsentComplete, D.CurrentIds, D.RecordAcceptances, TrialsOf, AcceptDescriptor;
    assert AcceptDescriptor(env, x).operation == LegalAccept && AcceptDescriptor(env, x).key == x.key by {
      AcceptSlot(env, x);
    }
    SuppliesIff(s.board, now, x.documents);
  }

  lemma AcceptSlot(env: Env, x: AcceptInput)
    ensures Slot(AcceptDescriptor(env, x)) == (LegalAccept, x.key)
  {
  }

  lemma SuppliesIff(board: D.Board, now: int, documents: seq<Id>)
    ensures D.SuppliesCurrent(board, now, documents) <==>
      forall id :: id in documents <==> id in D.CurrentIds(board, now)
  {
    hide D.CurrentIds;
    var supplied := set id | id in documents;
    assert forall id :: id in supplied <==> id in documents;
  }
}
