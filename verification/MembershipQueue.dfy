/**
 * Orders in review. To reject takes recorded evidence of exactly the price and currency, just as to approve does,
 * while to submit takes any evidence; and none can be added in review.
 */
module MembershipQueue {
  import opened Common
  import opened Idempotency
  import opened Membership
  import opened MembershipLaws
  import opened MembershipRuns
  import C = Credits
  import D = Disclosure
  import L = Ledger

  predicate Fits(e: Evidence, id: Id, order: Order) {
    e.order == Some(id) && e.currency == order.currency && e.amount == order.price && e.status == Recorded
  }

  /** Some evidence of the order fits it. */
  predicate Decidable(s: Shop, id: Id)
    requires id in s.orders
  {
    exists e :: e in s.evidence && Fits(s.evidence[e], id, s.orders[id])
  }

  // ----- Stuck -----

  /** The order is in review and nothing fits it. */
  predicate Stuck(s: Shop, id: Id) {
    id in s.orders && s.orders[id].status == PendingReview && !Decidable(s, id)
  }

  /** The order is as it was, and no evidence of it is new or changed. */
  predicate PassesBy(s: Shop, after: Shop, id: Id)
    requires id in s.orders
  {
    && id in after.orders && after.orders[id] == s.orders[id]
    && forall e :: e in after.evidence && after.evidence[e].order == Some(id) ==>
         e in s.evidence && after.evidence[e] == s.evidence[e]
  }

  lemma JudgementPassesBy(env: Env, s: Shop, x: DecideInput, ids: NewIds, now: int, id: Id)
    requires Stuck(s, id) && x.order in s.orders && Judge(env, s, x, s.orders[x.order], ids, now).Ok?
    ensures PassesBy(s, Judge(env, s, x, s.orders[x.order], ids, now).shop, id)
  {
    hide Entitle, PostPurchase;
    assert x.order != id;
    if x.approve {
      ApproveActivates(env, s, x, ids, now);
    }
  }

  lemma DecisionPassesBy(env: Env, s: Shop, x: DecideInput, ids: NewIds, now: int, id: Id)
    requires Stuck(s, id)
    ensures PassesBy(s, Next(env, s, DecideStep(x, ids, now)), id)
  {
    hide Next, Judge, Stuck;
    NextDecide(env, s, x, ids, now);
    assert id in s.orders by {
      StuckIsOrder(s, id);
    }
    if DecideOrder(env, s, x, ids, now).Ok? {
      var order := s.orders[x.order];
      var work := Judge(env, s, x, order, ids, now);
      ClaimedWorks(s, DecideDescriptor(env, x, order), work);
      if work.Ok? {
        JudgementPassesBy(env, s, x, ids, now, id);
      }
    }
  }

  lemma StuckIsOrder(s: Shop, id: Id)
    requires Stuck(s, id)
    ensures id in s.orders
  {
  }

  lemma EvidencePassesBy(env: Env, s: Shop, x: EvidenceInput, newId: Id, now: int, id: Id)
    requires Stuck(s, id)
    ensures PassesBy(s, Next(env, s, EvidenceStep(x, newId, now)), id)
  {
    hide Next, EvidenceValid, EvidenceDescriptor, ClaimKey, CompleteKey, Decidable;
    NextEvidence(env, s, x, newId, now);
    EvidenceMoves(env, s, x, newId, now);
  }

  lemma SubmissionPassesBy(env: Env, s: Shop, x: SubmitInput, id: Id)
    requires Stuck(s, id)
    ensures PassesBy(s, Next(env, s, SubmitStep(x)), id)
  {
    hide Next, SubmitDescriptor, ClaimKey, CompleteKey, HasEvidence, Decidable;
    NextSubmit(env, s, x);
  }

  lemma CreationPassesBy(env: Env, s: Shop, x: CreateInput, newId: Id, now: int, id: Id)
    requires Stuck(s, id)
    ensures PassesBy(s, Next(env, s, CreateStep(x, newId, now)), id)
  {
    hide Next, CreateDescriptor, D.ConfigurationComplete, D.SuppliesCurrent, D.RecordAcceptances, ClaimKey, CompleteKey,
      Decidable;
    NextCreate(env, s, x, newId, now);
  }

  lemma PaymentPassesBy(env: Env, s: Shop, x: PayInput, ids: PayIds, now: int, id: Id)
    requires Stuck(s, id)
    ensures PassesBy(s, Next(env, s, PayStep(x, ids, now)), id)
  {
    hide Next, PayOrder, EntitlePaid, PostPayment, Decidable;
    NextPay(env, s, x, ids, now);
    if PayOrder(env, s, x, ids, now).Ok? {
      PaymentActivates(env, s, x, ids, now);
    }
  }

  lemma AcceptancePassesBy(env: Env, s: Shop, x: AcceptInput, now: int, id: Id)
    requires Stuck(s, id)
    ensures PassesBy(s, Next(env, s, AcceptStep(x, now)), id)
  {
    hide Next, D.ConfigurationComplete, D.ConsentComplete, D.SuppliesCurrent, D.RecordAcceptances, ActivateTrial,
      AcceptDescriptor, ClaimKey, CompleteKey, Decidable;
    NextAccept(env, s, x, now);
  }

  lemma StepPassesBy(env: Env, s: Shop, step: Step, id: Id)
    requires Stuck(s, id)
    ensures PassesBy(s, Next(env, s, step), id) && Stuck(Next(env, s, step), id)
  {
    hide Exec, L.Next, C.Next, D.Next;
    match step
    case CreateStep(x, newId, now) => CreationPassesBy(env, s, x, newId, now, id);
    case EvidenceStep(x, newId, now) => EvidencePassesBy(env, s, x, newId, now, id);
    case SubmitStep(x) => SubmissionPassesBy(env, s, x, id);
    case DecideStep(x, ids, now) => DecisionPassesBy(env, s, x, ids, now, id);
    case PayStep(x, ids, now) => PaymentPassesBy(env, s, x, ids, now, id);
    case AcceptStep(x, now) => AcceptancePassesBy(env, s, x, now, id);
    case _ =>
  }

  lemma {:induction false} RunPassesBy(env: Env, s: Shop, steps: seq<Step>, id: Id)
    requires Stuck(s, id)
    ensures id in Run(env, s, steps).orders && Run(env, s, steps).orders[id] == s.orders[id]
    decreases |steps|
  {
    hide Next;
    if steps != [] {
      StepPassesBy(env, s, steps[0], id);
      RunPassesBy(env, Next(env, s, steps[0]), steps[1..], id);
    }
  }

  // ----- Not stuck -----

  /** There is always a text that was not used yet. */
  lemma {:induction false} UnusedText(used: set<string>) returns (text: string)
    ensures forall u :: u in used ==> |u| < |text|
    decreases |used|
  {
    text := "-";
    if used != {} {
      var u :| u in used;
      var longer := UnusedText(used - {u});
      text := if |longer| > |u| then longer else u + "-";
    }
  }

  function KeysOf(records: Records<Reply>): set<string> {
    set slot | slot in records :: slot.1
  }

  /** With evidence that fits, somebody else can reject the order under a new key. */
  lemma CanBeRejected(env: Env, s: Shop, id: Id) returns (x: DecideInput)
    requires AllSound(s) && id in s.orders && s.orders[id].status == PendingReview && Decidable(s, id)
    ensures x.order == id && !x.approve && Judged(s, x) && (OrderDecision, x.key) !in s.records
  {
    hide AllSound, Sound;
    InReviewIsSubmitted(s, id);
    var e :| e in s.evidence && Fits(s.evidence[e], id, s.orders[id]);
    var submitter, recorder := s.orders[id].submittedBy.value, s.evidence[e].recordedBy;
    var reviewer := UnusedText({submitter, recorder});
    assert reviewer != submitter && reviewer != recorder;
    var key := UnusedText(KeysOf(s.records));
    KeyIsUnused(s.records, key);
    x := DecideInput(id, reviewer, false, "", e, key, "");
  }

  lemma KeyIsUnused(records: Records<Reply>, key: string)
    requires forall u :: u in KeysOf(records) ==> |u| < |key|
    ensures (OrderDecision, key) !in records
  {
    forall slot | slot in records ensures slot.1 != key {
      assert slot.1 in KeysOf(records);
    }
  }

  lemma InReviewIsSubmitted(s: Shop, id: Id)
    requires AllSound(s) && id in s.orders && s.orders[id].status == PendingReview
    ensures s.orders[id].submittedBy.Some?
  {
    assert Sound(FactsOf(s, id));
  }

  lemma RejectionGoesThrough(env: Env, s: Shop, x: DecideInput, ids: NewIds, now: int)
    requires Judged(s, x) && !x.approve && (OrderDecision, x.key) !in s.records
    ensures var after := Next(env, s, DecideStep(x, ids, now));
      x.order in after.orders && after.orders[x.order].status == Rejected
  {
    hide Next;
    NextDecide(env, s, x, ids, now);
  }

  lemma InvIsSound(s: Shop)
    requires Inv(s)
    ensures AllSound(s)
  {
  }

  // ----- The exact condition -----

  /** The order never changes again, whatever happens. */
  ghost predicate NeverChanges(env: Env, s: Shop, id: Id)
    requires id in s.orders
  {
    forall steps :: id in Run(env, s, steps).orders && Run(env, s, steps).orders[id] == s.orders[id]
  }

  /** An order in review never changes again, over every run, if and only if no evidence fits it. */
  lemma StuckIffNothingFits(env: Env, s: Shop, id: Id)
    requires Inv(s) && id in s.orders && s.orders[id].status == PendingReview
    ensures NeverChanges(env, s, id) <==> !Decidable(s, id)
  {
    hide Next, Inv;
    if Decidable(s, id) {
      assert AllSound(s) by {
        InvIsSound(s);
      }
      var x := CanBeRejected(env, s, id);
      var step := DecideStep(x, NewIds("", ""), 0);
      RejectionGoesThrough(env, s, x, NewIds("", ""), 0);
      assert Run(env, s, [step]) == Run(env, Next(env, s, step), [step][1..]) == Next(env, s, step);
    } else {
      forall steps ensures id in Run(env, s, steps).orders && Run(env, s, steps).orders[id] == s.orders[id] {
        RunPassesBy(env, s, steps, id);
      }
    }
  }

  /** This can be told at the submission: from then on the order is stuck exactly if nothing fits it by then. */
  lemma SubmissionSticksIff(env: Env, s: Shop, x: SubmitInput)
    requires Inv(s) && x.order in s.orders && s.orders[x.order].status == PendingEvidence
    requires SubmitOrder(env, s, x).Ok?
    requires SubmitOrder(env, s, x).shop.orders[x.order].status == PendingReview
    ensures NeverChanges(env, SubmitOrder(env, s, x).shop, x.order) <==> !Decidable(s, x.order)
  {
    hide Next, Inv, ClaimKey, CompleteKey;
    var after := SubmitOrder(env, s, x).shop;
    SubmitStepKeeps(env, s, x);
    StuckIffNothingFits(env, after, x.order);
    assert after.evidence == s.evidence;
    assert forall e :: e in s.evidence ==>
      (Fits(s.evidence[e], x.order, after.orders[x.order]) <==> Fits(s.evidence[e], x.order, s.orders[x.order]));
  }

  /** Whether the evidence fits is not asked then: with any evidence and an unused key the order goes into review. */
  lemma SubmissionGoesThrough(env: Env, s: Shop, x: SubmitInput)
    requires x.order in s.orders && s.orders[x.order].status == PendingEvidence
    requires HasEvidence(s.evidence, x.order) && (OrderSubmit, x.key) !in s.records
    ensures SubmitOrder(env, s, x).Ok? && x.order in SubmitOrder(env, s, x).shop.orders
    ensures SubmitOrder(env, s, x).shop.orders[x.order].status == PendingReview
  {
  }

  /** So an order submitted with evidence of other amounts only is accepted, and then stays in review for ever. */
  lemma WrongAmountsStick(env: Env, s: Shop, x: SubmitInput)
    requires Inv(s) && x.order in s.orders && s.orders[x.order].status == PendingEvidence
    requires HasEvidence(s.evidence, x.order) && (OrderSubmit, x.key) !in s.records
    requires forall e :: e in s.evidence && s.evidence[e].order == Some(x.order) ==>
      s.evidence[e].amount != s.orders[x.order].price
    ensures SubmitOrder(env, s, x).Ok?
    ensures var after := SubmitOrder(env, s, x).shop;
      && x.order in after.orders && after.orders[x.order].status == PendingReview
      && NeverChanges(env, after, x.order)
  {
    hide Next, Inv, SubmitOrder;
    SubmissionGoesThrough(env, s, x);
    SubmissionSticksIff(env, s, x);
  }
}
