/** The term of one membership over a whole run: what the approvals and payments carried out on it make of it. */
module MembershipTerms {
  import opened Common
  import opened Idempotency
  import opened Renewal
  import opened Membership
  import opened MembershipRuns
  import ML = MembershipLaws
  import C = Credits
  import D = Disclosure
  import L = Ledger

  /**
   * What can happen to the term of a membership: an approved order, an order paid from the wallet, which starts it
   * afresh, or the beginning of its trial.
   */
  datatype Change = Approved(approval: Approval) | Paid(payment: Approval) | TrialBegun(at: int)

  function Changed(t: Option<Term>, c: Change): Option<Term> {
    match c
    case Approved(a) => Renew(t, a)
    case Paid(a) => Renew(None, a)
    case TrialBegun(at) => if t.Some? then Some(Term(t.value.lifetime, Some(at + 3 * DAY))) else None
  }

  function ChangeAll(t: Option<Term>, changes: seq<Change>): Option<Term>
    decreases |changes|
  {
    if changes == [] then t else ChangeAll(Changed(t, changes[0]), changes[1..])
  }

  /** The term of the membership at a position; None while there is none. */
  function TermIn(env: Env, s: Shop, i: nat): Option<Term> {
    if i < |s.memberships| then Some(TermOf(env.plans, s.memberships[i])) else None
  }

  /** The step carries an approval out: its order becomes an activated one. */
  predicate Activates(env: Env, s: Shop, step: Step) {
    && step.DecideStep? && step.decide.order in s.orders && s.orders[step.decide.order].status != Activated
    && var next := Next(env, s, step);
       step.decide.order in next.orders && next.orders[step.decide.order].status == Activated
  }

  /** Where an approval for this customer takes effect: on their current membership, or on a new one. */
  function Target(memberships: seq<Membership>, user: Id): nat {
    if CurrentOf(memberships, user) == [] then |memberships| else CurrentOf(memberships, user)[0]
  }

  /** The step carries a payment from the wallet out. */
  predicate Pays(env: Env, s: Shop, step: Step) {
    step.PayStep? && PayOrder(env, s, step.pay, step.payIds, step.paidAt).Ok?
  }

  /** Where a payment of this customer takes effect: on their active or waiting membership, or on a new one. */
  function PayTarget(memberships: seq<Membership>, user: Id): nat {
    if HeldBy(memberships, user) == [] then |memberships| else HeldBy(memberships, user)[0]
  }

  /** What the step does to the term of the membership at position `i`. */
  function ChangeOf(env: Env, s: Shop, step: Step, i: nat): seq<Change> {
    if Activates(env, s, step) then
      var order := s.orders[step.decide.order];
      if i == Target(s.memberships, order.user) then [Approved(Approval(step.decidedAt, order.durationDays))] else []
    else if Pays(env, s, step) then
      var user, days := s.orders[step.pay.order].user, s.orders[step.pay.order].durationDays;
      if i == PayTarget(s.memberships, user) then [Paid(Approval(step.paidAt, days))] else []
    else if step.AcceptStep? && Next(env, s, step).memberships != s.memberships
         && i < |s.memberships| && IsPendingTrial(s.memberships[i], step.accept.user) then [TrialBegun(step.acceptedAt)]
    else []
  }

  function ChangesOn(env: Env, s: Shop, steps: seq<Step>, i: nat): seq<Change>
    decreases |steps|
  {
    if steps == [] then []
    else ChangeOf(env, s, steps[0], i) + ChangesOn(env, Next(env, s, steps[0]), steps[1..], i)
  }

  // ----- One step -----

  /** A decision that is not carried out as an approval leaves the memberships alone. */
  lemma OnlyActivationEntitles(env: Env, s: Shop, x: DecideInput, ids: NewIds, now: int)
    ensures var step := DecideStep(x, ids, now);
      if Activates(env, s, step) then
        && x.order in s.orders && x.evidence in s.evidence
        && Approve(env, s, x, s.orders[x.order], ids, now).Ok?
        && Next(env, s, step).memberships == Approve(env, s, x, s.orders[x.order], ids, now).shop.memberships
      else Next(env, s, step).memberships == s.memberships
  {
    hide Next;
    NextDecide(env, s, x, ids, now);
    if DecideOrder(env, s, x, ids, now).Ok? {
      var order := s.orders[x.order];
      var work := Judge(env, s, x, order, ids, now);
      ClaimedWorks(s, DecideDescriptor(env, x, order), work);
      if work.Ok? {
        JudgeMoves(env, s, x, ids, now);
        JudgeEntitles(env, s, x, ids, now);
      }
    }
  }

  lemma JudgeEntitles(env: Env, s: Shop, x: DecideInput, ids: NewIds, now: int)
    requires x.order in s.orders && Judge(env, s, x, s.orders[x.order], ids, now).Ok?
    ensures var work := Judge(env, s, x, s.orders[x.order], ids, now);
      && x.evidence in s.evidence && s.orders[x.order].status == PendingReview && x.order in work.shop.orders
      && (x.approve ==>
           && work == Approve(env, s, x, s.orders[x.order], ids, now)
           && work.shop.orders[x.order].status == Activated)
      && (!x.approve ==> work.shop.memberships == s.memberships && work.shop.orders[x.order].status == Rejected)
  {
    if x.approve {
      ApproveMoves(env, s, x, s.orders[x.order], ids, now);
    }
  }

  lemma DecisionChanges(env: Env, s: Shop, x: DecideInput, ids: NewIds, now: int, i: nat)
    requires PlansSound(env.plans) && OrdersMatchPlans(env, s)
    ensures var step := DecideStep(x, ids, now);
      TermIn(env, Next(env, s, step), i) == ChangeAll(TermIn(env, s, i), ChangeOf(env, s, step, i))
  {
    hide Next, Approve, DecideOrder, Judge;
    NextDecide(env, s, x, ids, now);
    OnlyActivationEntitles(env, s, x, ids, now);
    if Activates(env, s, DecideStep(x, ids, now)) {
      ApprovalRenews(env, s, x, ids, now);
    }
  }

  lemma PaymentEntitles(env: Env, s: Shop, x: PayInput, ids: PayIds, now: int)
    requires PayOrder(env, s, x, ids, now).Ok?
    ensures x.order in s.orders
      && PayOrder(env, s, x, ids, now).shop.memberships ==
         EntitlePaid(s.memberships, s.orders[x.order], ids.membership, now).memberships
  {
    hide EntitlePaid, PostPayment;
    ML.PaymentActivates(env, s, x, ids, now);
  }

  lemma EntitlePaidChanges(env: Env, s: Shop, order: Order, newMembership: Id, now: int, i: nat)
    requires PlansSound(env.plans) && order.plan in env.plans
    requires order.durationDays == env.plans[order.plan].durationDays
    ensures var after := EntitlePaid(s.memberships, order, newMembership, now).memberships;
      TermIn(env, s.(memberships := after), i) ==
        if i == PayTarget(s.memberships, order.user) then Renew(None, Approval(now, order.durationDays))
        else TermIn(env, s, i)
  {
  }

  lemma PaymentChanges(env: Env, s: Shop, x: PayInput, ids: PayIds, now: int, i: nat)
    requires PlansSound(env.plans) && OrdersMatchPlans(env, s)
    ensures var step := PayStep(x, ids, now);
      TermIn(env, Next(env, s, step), i) == ChangeAll(TermIn(env, s, i), ChangeOf(env, s, step, i))
  {
    hide Next, PayOrder, EntitlePaid, PayTarget, PlansSound, Renew, TermOf;
    NextPay(env, s, x, ids, now);
    if PayOrder(env, s, x, ids, now).Ok? {
      PaymentEntitles(env, s, x, ids, now);
      EntitlePaidChanges(env, s, s.orders[x.order], ids.membership, now, i);
    }
  }

  lemma AcceptanceBegins(env: Env, s: Shop, x: AcceptInput, now: int)
    ensures var next := Next(env, s, AcceptStep(x, now));
      next.memberships == s.memberships || Some(next.memberships) == ActivateTrial(s.memberships, x.user, now)
  {
    hide Next, D.ConfigurationComplete, D.ConsentComplete, D.SuppliesCurrent, D.RecordAcceptances, ActivateTrial,
      AcceptDescriptor;
    NextAccept(env, s, x, now);
  }

  lemma AcceptanceChanges(env: Env, s: Shop, x: AcceptInput, now: int, i: nat)
    ensures var step := AcceptStep(x, now);
      TermIn(env, Next(env, s, step), i) == ChangeAll(TermIn(env, s, i), ChangeOf(env, s, step, i))
  {
    hide Next, PayOrder, ActivateTrial;
    var next := Next(env, s, AcceptStep(x, now));
    AcceptanceBegins(env, s, x, now);
    if next.memberships != s.memberships {
      TrialGone(s.memberships, x.user, now);
      if i < |s.memberships| && IsPendingTrial(s.memberships[i], x.user) {
        assert next.memberships[i] != s.memberships[i];
      }
    }
  }

  lemma StepChanges(env: Env, s: Shop, step: Step, i: nat)
    requires PlansSound(env.plans) && OrdersMatchPlans(env, s)
    ensures TermIn(env, Next(env, s, step), i) == ChangeAll(TermIn(env, s, i), ChangeOf(env, s, step, i))
  {
    hide Next, PlansSound, OrdersMatchPlans;
    match step
    case DecideStep(x, ids, now) => DecisionChanges(env, s, x, ids, now, i);
    case PayStep(x, ids, now) => PaymentChanges(env, s, x, ids, now, i);
    case AcceptStep(x, now) => AcceptanceChanges(env, s, x, now, i);
    case _ => OthersKeepMemberships(env, s, step);
  }

  /** No other step changes what a term depends on. */
  lemma OthersKeepMemberships(env: Env, s: Shop, step: Step)
    requires !step.DecideStep? && !step.PayStep? && !step.AcceptStep?
    ensures var next := Next(env, s, step);
      && (next.memberships == s.memberships || step.LifecycleStep?)
      && |next.memberships| == |s.memberships|
      && forall i :: 0 <= i < |s.memberships| ==>
        TermOf(env.plans, next.memberships[i]) == TermOf(env.plans, s.memberships[i])
  {
    hide DecideOrder, PayOrder, AcceptDocuments, D.Next, L.Next, C.Next, EvidenceRow, EvidenceValid,
      EvidenceDescriptor, CreateDescriptor, SubmitDescriptor;
  }

  // ----- Whole runs -----

  lemma {:induction false} ChangeAllSplits(t: Option<Term>, a: seq<Change>, b: seq<Change>)
    ensures ChangeAll(t, a + b) == ChangeAll(ChangeAll(t, a), b)
    decreases |a|
  {
    if a == [] {
      assert a + b == b;
    } else {
      assert (a + b)[1..] == a[1..] + b;
      ChangeAllSplits(Changed(t, a[0]), a[1..], b);
    }
  }

  /** Over every run, a membership's term is what the changes carried out on it, in order, make of its first one. */
  lemma {:induction false} TermIsItsChanges(env: Env, s: Shop, steps: seq<Step>, i: nat)
    requires PlansSound(env.plans) && OrdersMatchPlans(env, s)
    ensures TermIn(env, Run(env, s, steps), i) == ChangeAll(TermIn(env, s, i), ChangesOn(env, s, steps, i))
    decreases |steps|
  {
    hide Next, ChangeOf, PlansSound, OrdersMatchPlans;
    if steps != [] {
      var next := Next(env, s, steps[0]);
      StepChanges(env, s, steps[0], i);
      NextMatchesPlans(env, s, steps[0]);
      TermIsItsChanges(env, next, steps[1..], i);
      ChangeAllSplits(TermIn(env, s, i), ChangeOf(env, s, steps[0], i), ChangesOn(env, next, steps[1..], i));
    }
  }

  predicate OnlyApprovals(changes: seq<Change>) {
    forall k :: 0 <= k < |changes| ==> changes[k].Approved?
  }

  function Approvals(changes: seq<Change>): seq<Approval>
    requires OnlyApprovals(changes)
  {
    seq(|changes|, k requires 0 <= k < |changes| => changes[k].approval)
  }

  lemma {:induction false} ApprovalsRenew(t: Option<Term>, changes: seq<Change>)
    requires OnlyApprovals(changes)
    ensures ChangeAll(t, changes) == RenewAll(t, Approvals(changes))
    decreases |changes|
  {
    if changes != [] {
      var n := |changes| - 1;
      var front, last := changes[..n], changes[n..];
      ApprovalsRenew(t, front);
      assert changes == front + last && last[1..] == [];
      ChangeAllSplits(t, front, last);
      assert Approvals(changes)[..n] == Approvals(front) && Approvals(changes)[n] == changes[n].approval;
      assert ChangeAll(ChangeAll(t, front), last) == Changed(ChangeAll(t, front), changes[n]);
    }
  }

  /** While no trial begins on it, a membership's term is the renewal of its first one by all its approvals. */
  lemma TermIsRenewAll(env: Env, s: Shop, steps: seq<Step>, i: nat)
    requires PlansSound(env.plans) && OrdersMatchPlans(env, s) && OnlyApprovals(ChangesOn(env, s, steps, i))
    ensures TermIn(env, Run(env, s, steps), i) == RenewAll(TermIn(env, s, i), Approvals(ChangesOn(env, s, steps, i)))
  {
    hide Next, ChangeOf, PlansSound, OrdersMatchPlans;
    TermIsItsChanges(env, s, steps, i);
    ApprovalsRenew(TermIn(env, s, i), ChangesOn(env, s, steps, i));
  }

  /** So over a whole run nothing a customer has bought is lost. */
  lemma BoughtDaysAreKept(env: Env, s: Shop, steps: seq<Step>, i: nat)
    requires PlansSound(env.plans) && OrdersMatchPlans(env, s) && OnlyApprovals(ChangesOn(env, s, steps, i))
    requires var approvals := Approvals(ChangesOn(env, s, steps, i)); Finite(approvals) && approvals != []
    requires TermIn(env, s, i).Some? ==> !TermIn(env, s, i).value.lifetime
    ensures var approvals, after := Approvals(ChangesOn(env, s, steps, i)), TermIn(env, Run(env, s, steps), i);
      && after.Some? && after.value.expires.Some?
      && after.value.expires.value >= approvals[0].now + DaysFrom(approvals, 0) * DAY
  {
    hide Next, ChangeOf, PlansSound, OrdersMatchPlans;
    TermIsRenewAll(env, s, steps, i);
    NoDayIsLost(TermIn(env, s, i), Approvals(ChangesOn(env, s, steps, i)));
  }

  // ----- Lifetime memberships -----

  const FOR_LIFE := Some(Term(true, None))

  /** The step carries out a payment of a finite order on the membership at position `i`. */
  predicate PaysFinitelyOn(env: Env, s: Shop, step: Step, i: nat) {
    && Pays(env, s, step) && step.pay.order in s.orders
    && var order := s.orders[step.pay.order];
       order.durationDays.Some? && i == PayTarget(s.memberships, order.user)
  }

  predicate EverPaidFinitely(env: Env, s: Shop, steps: seq<Step>, i: nat)
    decreases |steps|
  {
    steps != [] && (PaysFinitelyOn(env, s, steps[0], i) || EverPaidFinitely(env, Next(env, s, steps[0]), steps[1..], i))
  }

  /** The membership is for life before and after each step. */
  predicate AlwaysForLife(env: Env, s: Shop, steps: seq<Step>, i: nat)
    decreases |steps|
  {
    TermIn(env, s, i) == FOR_LIFE && (steps == [] || AlwaysForLife(env, Next(env, s, steps[0]), steps[1..], i))
  }

  /** No trial can begin on it, as the trial is no plan version; and approvals respect it. */
  lemma StepOnLifetime(env: Env, s: Shop, step: Step, i: nat)
    requires PlansSound(env.plans) && OrdersMatchPlans(env, s) && TRIAL !in env.plans
    requires TermIn(env, s, i) == FOR_LIFE
    ensures TermIn(env, Next(env, s, step), i) == FOR_LIFE <==> !PaysFinitelyOn(env, s, step, i)
  {
    hide Next, PayOrder, Target, PayTarget, OrdersMatchPlans, PlansSound;
    StepChanges(env, s, step, i);
    if Pays(env, s, step) {
      ML.PaymentActivates(env, s, step.pay, step.payIds, step.paidAt);
    }
    assert !IsPendingTrial(s.memberships[i], if step.AcceptStep? then step.accept.user else "");
    var changes := ChangeOf(env, s, step, i);
    if changes != [] {
      assert ChangeAll(TermIn(env, s, i), changes) == Changed(TermIn(env, s, i), changes[0]) by {
        assert changes[1..] == [];
      }
    }
  }

  /**
   * A lifetime membership stays one, whatever is ordered, approved or accepted, exactly as long as no finite order is
   * paid on it from the wallet: the guard of that route does not recognise it.
   */
  lemma {:induction false} LifetimeStaysIff(env: Env, s: Shop, steps: seq<Step>, i: nat)
    requires PlansSound(env.plans) && OrdersMatchPlans(env, s) && TRIAL !in env.plans
    requires TermIn(env, s, i) == FOR_LIFE
    ensures AlwaysForLife(env, s, steps, i) <==> !EverPaidFinitely(env, s, steps, i)
    decreases |steps|
  {
    hide Next, PlansSound, OrdersMatchPlans, PaysFinitelyOn;
    if steps != [] {
      var next := Next(env, s, steps[0]);
      StepOnLifetime(env, s, steps[0], i);
      NextMatchesPlans(env, s, steps[0]);
      if TermIn(env, next, i) == FOR_LIFE {
        LifetimeStaysIff(env, next, steps[1..], i);
      }
    }
  }

  /** When a payment is refused for downgrading: the code is compared with the id of the plan version. */
  lemma PaymentDowngradeRefused(env: Env, s: Shop, x: PayInput, ids: PayIds, now: int)
    requires x.order in s.orders && s.orders[x.order].user == x.user && s.orders[x.order].status == PendingEvidence
    ensures var held := HeldBy(s.memberships, x.user);
      PayOrder(env, s, x, ids, now) == Err(LifetimeDowngrade) <==>
        |held| == 1 && s.memberships[held[0]].plan == LIFETIME && s.orders[x.order].durationDays.Some?
  {
    hide EntitlePaid, PostPayment;
  }

  /** So where no plan version has that id, none is refused for it, whatever the term of the customer's membership. */
  lemma PaymentsNeverRefusedForLife(env: Env, s: Shop, x: PayInput, ids: PayIds, now: int)
    requires LIFETIME !in env.plans
    requires forall i :: 0 <= i < |s.memberships| ==>
      s.memberships[i].plan in env.plans || s.memberships[i].plan == TRIAL
    ensures PayOrder(env, s, x, ids, now) != Err(LifetimeDowngrade)
  {
    hide EntitlePaid, PostPayment;
  }

  /** A payment moves an expiry back exactly when the order is finite and more is left than it brings. */
  lemma PaymentMovesBackIff(env: Env, s: Shop, x: PayInput, ids: PayIds, now: int)
    requires PayOrder(env, s, x, ids, now).Ok?
    ensures x.order in s.orders
    ensures var order, i := s.orders[x.order], PayTarget(s.memberships, x.user);
      var after := PayOrder(env, s, x, ids, now).shop.memberships;
      && i < |after|
      && (i < |s.memberships| ==>
           (!NotEarlier(after[i].expiresAt, s.memberships[i].expiresAt) <==>
             && order.durationDays.Some?
             && (s.memberships[i].expiresAt.None?
                 || now + order.durationDays.value * DAY < s.memberships[i].expiresAt.value)))
  {
    hide PayOrder;
    PaymentEntitles(env, s, x, ids, now);
    ML.PaymentActivates(env, s, x, ids, now);
  }
}
