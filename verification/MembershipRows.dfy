/**
 * How many rows a customer has in the table of memberships. An approval looks at current rows and a payment at active
 * and waiting ones, so neither sees every row, and each can open a second one.
 */
module MembershipRows {
  import opened Common
  import opened Membership
  import opened MembershipRuns
  import opened MembershipTerms
  import ML = MembershipLaws

  /** Waiting, or current in any way. */
  predicate Live(m: Membership) {
    m.status != Ended
  }

  /** No customer has two live rows. */
  predicate OneEach(memberships: seq<Membership>) {
    forall i, j :: 0 <= i < j < |memberships| && Live(memberships[i]) && Live(memberships[j]) ==>
      memberships[i].customer != memberships[j].customer
  }

  predicate HasLive(memberships: seq<Membership>, user: Id) {
    exists i :: 0 <= i < |memberships| && Live(memberships[i]) && memberships[i].customer == user
  }

  // ----- Positions -----

  lemma {:induction false} Listed(memberships: seq<Membership>, wanted: Membership -> bool, i: nat)
    requires i < |memberships| && wanted(memberships[i])
    ensures i in Positions(memberships, wanted)
  {
    if i < |memberships| - 1 {
      Listed(memberships[..|memberships| - 1], wanted, i);
    }
  }

  lemma {:induction false} TwoListed(memberships: seq<Membership>, wanted: Membership -> bool, i: nat, j: nat)
    requires i < j < |memberships| && wanted(memberships[i]) && wanted(memberships[j])
    ensures |Positions(memberships, wanted)| > 1
  {
    var n := |memberships| - 1;
    if j < n {
      TwoListed(memberships[..n], wanted, i, j);
    } else {
      Listed(memberships[..n], wanted, i);
    }
  }

  // ----- One step -----

  /** Rows keep their customer, and neither begin nor cease to be live. */
  predicate SameRows(before: seq<Membership>, after: seq<Membership>) {
    |before| <= |after|
    && forall i :: 0 <= i < |before| ==>
      after[i].customer == before[i].customer && (Live(after[i]) <==> Live(before[i]))
  }

  /** At most one row is added, live and for this user. */
  predicate AddsFor(before: seq<Membership>, after: seq<Membership>, user: Id) {
    && SameRows(before, after) && |after| == |before| + 1
    && Live(after[|before|]) && after[|before|].customer == user
  }

  /** The step is an approval or a payment that finds no row of the kind it looks at. */
  predicate Opens(env: Env, s: Shop, step: Step, user: Id) {
    || (Activates(env, s, step) && s.orders[step.decide.order].user == user && CurrentOf(s.memberships, user) == [])
    || (Pays(env, s, step) && step.pay.user == user && HeldBy(s.memberships, user) == [])
  }

  /** Whose row a step may open. */
  function Customer(s: Shop, step: Step): Id {
    if step.DecideStep? && step.decide.order in s.orders then s.orders[step.decide.order].user
    else if step.PayStep? then step.pay.user
    else ""
  }

  lemma EntitleRows(env: Env, memberships: seq<Membership>, order: Order, newMembership: Id, now: int)
    requires Entitle(env, memberships, order, newMembership, now).Entitled?
    ensures var after := Entitle(env, memberships, order, newMembership, now).entitlement.memberships;
      if CurrentOf(memberships, order.user) == [] then AddsFor(memberships, after, order.user)
      else |after| == |memberships| && SameRows(memberships, after)
  {
  }

  lemma EntitlePaidRows(memberships: seq<Membership>, order: Order, newMembership: Id, now: int)
    ensures var after := EntitlePaid(memberships, order, newMembership, now).memberships;
      if HeldBy(memberships, order.user) == [] then AddsFor(memberships, after, order.user)
      else |after| == |memberships| && SameRows(memberships, after)
  {
  }

  /** What a step does to the rows. */
  predicate RowsAfter(env: Env, s: Shop, step: Step, after: seq<Membership>) {
    if Opens(env, s, step, Customer(s, step)) then AddsFor(s.memberships, after, Customer(s, step))
    else |after| == |s.memberships| && SameRows(s.memberships, after)
  }

  lemma DecisionRows(env: Env, s: Shop, x: DecideInput, ids: NewIds, now: int)
    ensures var step := DecideStep(x, ids, now); RowsAfter(env, s, step, Next(env, s, step).memberships)
  {
    hide Next, DecideOrder, Entitle, CurrentOf, PayOrder;
    var step := DecideStep(x, ids, now);
    OnlyActivationEntitles(env, s, x, ids, now);
    if Activates(env, s, step) {
      ApprovalEntitles(env, s, x, ids, now);
      EntitleRows(env, s.memberships, s.orders[x.order], ids.membership, now);
    }
  }

  lemma PaymentRows(env: Env, s: Shop, x: PayInput, ids: PayIds, now: int)
    ensures var step := PayStep(x, ids, now); RowsAfter(env, s, step, Next(env, s, step).memberships)
  {
    hide Next, PayOrder, EntitlePaid, HeldBy;
    NextPay(env, s, x, ids, now);
    if PayOrder(env, s, x, ids, now).Ok? {
      ML.PaymentActivates(env, s, x, ids, now);
      PaymentEntitles(env, s, x, ids, now);
      EntitlePaidRows(s.memberships, s.orders[x.order], ids.membership, now);
    }
  }

  lemma AcceptanceRows(env: Env, s: Shop, x: AcceptInput, now: int)
    ensures var step := AcceptStep(x, now); RowsAfter(env, s, step, Next(env, s, step).memberships)
  {
    hide Next, ActivateTrial, PayOrder;
    AcceptanceBegins(env, s, x, now);
    if Next(env, s, AcceptStep(x, now)).memberships != s.memberships {
      TrialGone(s.memberships, x.user, now);
    }
  }

  lemma LifecycleRows(env: Env, s: Shop, i: nat, status: MembershipStatus)
    ensures var step := LifecycleStep(i, status); RowsAfter(env, s, step, Next(env, s, step).memberships)
  {
    hide Exec, L.Next, C.Next, D.Next, PayOrder;
  }

  lemma StepRows(env: Env, s: Shop, step: Step)
    ensures RowsAfter(env, s, step, Next(env, s, step).memberships)
  {
    hide Next, PayOrder;
    match step
    case DecideStep(x, ids, now) => DecisionRows(env, s, x, ids, now);
    case PayStep(x, ids, now) => PaymentRows(env, s, x, ids, now);
    case AcceptStep(x, now) => AcceptanceRows(env, s, x, now);
    case LifecycleStep(i, status) => LifecycleRows(env, s, i, status);
    case _ => OthersKeepMemberships(env, s, step);
  }

  lemma ApprovalEntitles(env: Env, s: Shop, x: DecideInput, ids: NewIds, now: int)
    requires x.order in s.orders && x.evidence in s.evidence
    requires Approve(env, s, x, s.orders[x.order], ids, now).Ok?
    ensures var entitled := Entitle(env, s.memberships, s.orders[x.order], ids.membership, now);
      && entitled.Entitled?
      && Approve(env, s, x, s.orders[x.order], ids, now).shop.memberships == entitled.entitlement.memberships
  {
    hide Entitle, PostPurchase;
  }

  /** A row is opened beside a live one of the same customer. */
  predicate OpensBeside(env: Env, s: Shop, step: Step) {
    Opens(env, s, step, Customer(s, step)) && HasLive(s.memberships, Customer(s, step))
  }

  lemma StepKeepsOneEach(env: Env, s: Shop, step: Step)
    ensures OneEach(Next(env, s, step).memberships) <==> OneEach(s.memberships) && !OpensBeside(env, s, step)
  {
    hide Next, Opens, Customer;
    var before, after := s.memberships, Next(env, s, step).memberships;
    StepRows(env, s, step);
    if OpensBeside(env, s, step) {
      var i :| 0 <= i < |before| && Live(before[i]) && before[i].customer == Customer(s, step);
      assert Live(after[i]) && after[i].customer == after[|before|].customer;
    }
    if OneEach(after) {
      forall i, j | 0 <= i < j < |before| && Live(before[i]) && Live(before[j])
        ensures before[i].customer != before[j].customer
      {
        assert Live(after[i]) && Live(after[j]);
      }
    } else {
      var i, j :| 0 <= i < j < |after| && Live(after[i]) && Live(after[j]) && after[i].customer == after[j].customer;
      assert Live(before[i]);
      if j < |before| {
        assert Live(before[j]);
      }
    }
  }

  // ----- Every run -----

  predicate EverOpensBeside(env: Env, s: Shop, steps: seq<Step>)
    decreases |steps|
  {
    steps != [] && (OpensBeside(env, s, steps[0]) || EverOpensBeside(env, Next(env, s, steps[0]), steps[1..]))
  }

  /**
   * No customer ever has two rows, if and only if no approval is carried out for a customer whose only live row is
   * waiting for its trial, and no payment for one whose only live row is in grace or read-only.
   */
  lemma {:induction false} OneEachIff(env: Env, s: Shop, steps: seq<Step>)
    ensures OneEach(Run(env, s, steps).memberships) <==> OneEach(s.memberships) && !EverOpensBeside(env, s, steps)
    decreases |steps|
  {
    hide Next, OneEach, OpensBeside;
    if steps != [] {
      StepKeepsOneEach(env, s, steps[0]);
      OneEachIff(env, Next(env, s, steps[0]), steps[1..]);
    }
  }

  // ----- What a second row leads to -----

  /** Two current memberships of one customer. */
  predicate CurrentTwice(memberships: seq<Membership>, user: Id, i: nat, j: nat) {
    i < j < |memberships| && IsCurrentOf(memberships[i], user) && IsCurrentOf(memberships[j], user)
  }

  predicate StaysCurrent(before: seq<Membership>, after: seq<Membership>, user: Id) {
    |before| <= |after| && forall i :: 0 <= i < |before| && IsCurrentOf(before[i], user) ==> IsCurrentOf(after[i], user)
  }

  lemma EntitleStaysCurrent(env: Env, memberships: seq<Membership>, order: Order, newMembership: Id, now: int, user: Id)
    requires Entitle(env, memberships, order, newMembership, now).Entitled?
    ensures StaysCurrent(memberships, Entitle(env, memberships, order, newMembership, now).entitlement.memberships,
                         user)
  {
  }

  lemma EntitlePaidStaysCurrent(memberships: seq<Membership>, order: Order, newMembership: Id, now: int, user: Id)
    ensures StaysCurrent(memberships, EntitlePaid(memberships, order, newMembership, now).memberships, user)
  {
  }

  /** Nothing ends a current membership: at worst it becomes read-only. */
  lemma StepStaysCurrent(env: Env, s: Shop, step: Step, user: Id)
    ensures StaysCurrent(s.memberships, Next(env, s, step).memberships, user)
  {
    hide CreateOrder, RecordEvidence, SubmitOrder, DecideOrder, PayOrder, AcceptDocuments, Entitle, EntitlePaid,
      CurrentOf, HeldBy, ActivateTrial, L.Next, C.Next, D.Next;
    match step
    case DecideStep(x, ids, now) =>
      OnlyActivationEntitles(env, s, x, ids, now);
      if Activates(env, s, step) {
        ApprovalEntitles(env, s, x, ids, now);
        EntitleStaysCurrent(env, s.memberships, s.orders[x.order], ids.membership, now, user);
      }
    case PayStep(x, ids, now) =>
      if PayOrder(env, s, x, ids, now).Ok? {
        PaymentEntitles(env, s, x, ids, now);
        EntitlePaidStaysCurrent(s.memberships, s.orders[x.order], ids.membership, now, user);
      }
    case AcceptStep(x, now) =>
      AcceptanceBegins(env, s, x, now);
      if Next(env, s, step).memberships != s.memberships {
        TrialGone(s.memberships, x.user, now);
      }
    case LifecycleStep(i, status) =>
    case _ => OthersKeepMemberships(env, s, step);
  }

  lemma {:induction false} RunStaysCurrent(env: Env, s: Shop, steps: seq<Step>, user: Id, i: nat, j: nat)
    requires CurrentTwice(s.memberships, user, i, j)
    ensures CurrentTwice(Run(env, s, steps).memberships, user, i, j)
    decreases |steps|
  {
    hide Next;
    if steps != [] {
      StepStaysCurrent(env, s, steps[0], user);
      RunStaysCurrent(env, Next(env, s, steps[0]), steps[1..], user, i, j);
    }
  }

  /** With two current memberships, no order of the customer is ever approved again. */
  lemma NeverApprovedAgain(env: Env, s: Shop, steps: seq<Step>, user: Id, i: nat, j: nat, x: DecideInput, ids: NewIds,
                           now: int)
    requires CurrentTwice(s.memberships, user, i, j)
    requires var later := Run(env, s, steps);
      x.order in later.orders && later.orders[x.order].user == user && x.evidence in later.evidence
    ensures var later := Run(env, s, steps);
      && Approve(env, later, x, later.orders[x.order], ids, now) == Err(IntegrityConflict)
      && !Activates(env, later, DecideStep(x, ids, now))
  {
    hide DecideOrder, Next;
    var later := Run(env, s, steps);
    RunStaysCurrent(env, s, steps, user, i, j);
    TwoListed(later.memberships, m => IsCurrentOf(m, user), i, j);
    OnlyActivationEntitles(env, later, x, ids, now);
  }

  /**
   * The run that leads there: a customer's trial is waiting and they have no current membership; an order of theirs
   * is approved, which opens a second row; then they accept the documents, which starts the trial.
   */
  lemma ApprovalBesideTrialJams(env: Env, s: Shop, x: DecideInput, ids: NewIds, now: int, accept: AcceptInput, at: int,
                                i: nat)
    requires i < |s.memberships| && IsPendingTrial(s.memberships[i], accept.user)
    requires CurrentOf(s.memberships, accept.user) == []
    requires Activates(env, s, DecideStep(x, ids, now)) && s.orders[x.order].user == accept.user
    requires var approved := Next(env, s, DecideStep(x, ids, now));
      Next(env, approved, AcceptStep(accept, at)).memberships != approved.memberships
    ensures var steps := [DecideStep(x, ids, now), AcceptStep(accept, at)];
      CurrentTwice(Run(env, s, steps).memberships, accept.user, i, |s.memberships|)
  {
    hide Next, ActivateTrial, Entitle, Approve, Activates;
    var decide, start := DecideStep(x, ids, now), AcceptStep(accept, at);
    var approved := Next(env, s, decide);
    OnlyActivationEntitles(env, s, x, ids, now);
    ApprovalEntitles(env, s, x, ids, now);
    EntitleOpens(env, s.memberships, s.orders[x.order], ids.membership, now);
    AcceptanceBegins(env, approved, accept, at);
    TrialGone(approved.memberships, accept.user, at);
    assert [decide, start][1..] == [start] && [start][1..] == [];
    assert Run(env, approved, [start]) == Run(env, Next(env, approved, start), []);
    assert Run(env, s, [decide, start]) == Next(env, approved, start);
  }

  lemma EntitleOpens(env: Env, memberships: seq<Membership>, order: Order, newMembership: Id, now: int)
    requires Entitle(env, memberships, order, newMembership, now).Entitled? && CurrentOf(memberships, order.user) == []
    ensures var after := Entitle(env, memberships, order, newMembership, now).entitlement.memberships;
      && |after| == |memberships| + 1 && after[..|memberships|] == memberships
      && IsCurrentOf(after[|memberships|], order.user)
  {
  }

  /** A payment beside a membership that has lapsed leads there at once. */
  lemma PaymentBesideLapsedJams(env: Env, s: Shop, x: PayInput, ids: PayIds, now: int, i: nat)
    requires i < |s.memberships| && IsCurrentOf(s.memberships[i], x.user) && HeldBy(s.memberships, x.user) == []
    requires PayOrder(env, s, x, ids, now).Ok?
    ensures CurrentTwice(Next(env, s, PayStep(x, ids, now)).memberships, x.user, i, |s.memberships|)
  {
    hide Next, PayOrder;
    NextPay(env, s, x, ids, now);
    ML.PaymentActivates(env, s, x, ids, now);
    PaymentEntitles(env, s, x, ids, now);
  }
}
