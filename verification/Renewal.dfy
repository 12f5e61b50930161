/** When a membership ends: the date arithmetic of renewals, over any number of them. */
module Renewal {
  import opened Common

  /** Milliseconds. */
  const DAY := 86400000

  /** What a renewal looks at; no expiry date means that it never ends. */
  datatype Term = Term(lifetime: bool, expires: Option<int>)

  /**
   * The new expiry of an approved order: counted from the old expiry if that is still ahead, else from now.
   * The outer None is the refusal to turn a lifetime membership into a finite one.
   */
  function Extend(before: Option<Term>, durationDays: Option<int>, now: int): Option<Option<int>> {
    if before.Some? && before.value.lifetime && durationDays.Some? then None
    else match durationDays
      case None => Some(None)
      case Some(days) => Some(Some(Base(before, now) + days * DAY))
  }

  function Base(before: Option<Term>, now: int): int {
    if before.Some? && before.value.expires.Some? && before.value.expires.value > now
    then before.value.expires.value else now
  }

  datatype Approval = Approval(now: int, durationDays: Option<int>)

  /** The term after an approval; a refused one changes nothing. A plan is for life exactly when it has no duration. */
  function Renew(before: Option<Term>, a: Approval): Option<Term> {
    match Extend(before, a.durationDays, a.now)
    case None => before
    case Some(expires) => Some(Term(a.durationDays.None?, expires))
  }

  function RenewAll(before: Option<Term>, approvals: seq<Approval>): Option<Term> {
    if approvals == [] then before
    else Renew(RenewAll(before, approvals[..|approvals| - 1]), approvals[|approvals| - 1])
  }

  predicate Finite(approvals: seq<Approval>) {
    forall i :: 0 <= i < |approvals| ==> approvals[i].durationDays.Some? && approvals[i].durationDays.value > 0
  }

  /** The days bought from the `i`-th approval on. */
  function DaysFrom(approvals: seq<Approval>, i: nat): int
    requires Finite(approvals) && i <= |approvals|
    decreases |approvals| - i
  {
    if i == |approvals| then 0 else approvals[i].durationDays.value + DaysFrom(approvals, i + 1)
  }

  lemma {:induction false} DaysFromFront(approvals: seq<Approval>, i: nat)
    requires Finite(approvals) && i < |approvals|
    ensures DaysFrom(approvals, i) ==
      DaysFrom(approvals[..|approvals| - 1], i) + approvals[|approvals| - 1].durationDays.value
    decreases |approvals| - i
  {
    if i < |approvals| - 1 {
      DaysFromFront(approvals, i + 1);
    }
  }

  /** The expiry if the clock is started at the `i`-th approval and never again. */
  function CountedFrom(approvals: seq<Approval>, i: nat): int
    requires Finite(approvals) && i < |approvals|
  {
    approvals[i].now + DaysFrom(approvals, i) * DAY
  }

  /** The old expiry, if there is one, extended by all the days bought. */
  function Carried(before: Option<Term>, approvals: seq<Approval>): Option<int>
    requires Finite(approvals)
  {
    if before.Some? && before.value.expires.Some? then Some(before.value.expires.value + DaysFrom(approvals, 0) * DAY)
    else None
  }

  ghost predicate IsLatest(e: int, before: Option<Term>, approvals: seq<Approval>)
    requires Finite(approvals)
  {
    && (forall i :: 0 <= i < |approvals| ==> CountedFrom(approvals, i) <= e)
    && (Carried(before, approvals).Some? ==> Carried(before, approvals).value <= e)
    && (Carried(before, approvals) == Some(e) || exists i :: 0 <= i < |approvals| && CountedFrom(approvals, i) == e)
  }

  lemma DaysShift(d: int, days: int)
    ensures (d + days) * DAY == d * DAY + days * DAY
  {
  }

  /**
   * After any number of finite approvals, at any times, the expiry is the latest of: the old expiry plus all
   * the days bought, and for each approval its time plus the days bought from it on.
   */
  lemma {:induction false} ExpiryClosedForm(before: Option<Term>, approvals: seq<Approval>)
    requires Finite(approvals) && approvals != [] && (before.Some? ==> !before.value.lifetime)
    ensures var after := RenewAll(before, approvals);
      after.Some? && !after.value.lifetime && after.value.expires.Some?
        && IsLatest(after.value.expires.value, before, approvals)
  {
    var n := |approvals| - 1;
    var front, last := approvals[..n], approvals[n];
    var days := last.durationDays.value;
    forall i | 0 <= i < n ensures CountedFrom(approvals, i) == CountedFrom(front, i) + days * DAY {
      DaysFromFront(approvals, i);
      DaysShift(DaysFrom(front, i), days);
    }
    DaysFromFront(approvals, 0);
    DaysShift(DaysFrom(front, 0), days);
    assert DaysFrom(approvals, n) == days + DaysFrom(approvals, n + 1);
    assert CountedFrom(approvals, n) == last.now + days * DAY;
    if front == [] {
      assert RenewAll(before, front) == before && approvals[0] == last;
      var after := RenewAll(before, approvals).value.expires.value;
      assert Carried(before, approvals) == Some(after) || CountedFrom(approvals, 0) == after;
    } else {
      ExpiryClosedForm(before, front);
      var e := RenewAll(before, front).value.expires.value;
      var after := RenewAll(before, approvals).value.expires.value;
      if e > last.now {
        assert after == e + days * DAY;
        if Carried(before, front) != Some(e) {
          var i :| 0 <= i < |front| && CountedFrom(front, i) == e;
          assert CountedFrom(approvals, i) == after;
        }
      } else {
        assert CountedFrom(approvals, n) == after;
      }
    }
  }

  /** In particular it is no earlier than the first approval plus everything bought since. */
  lemma NoDayIsLost(before: Option<Term>, approvals: seq<Approval>)
    requires Finite(approvals) && approvals != [] && (before.Some? ==> !before.value.lifetime)
    ensures var after := RenewAll(before, approvals);
      && after.Some? && after.value.expires.Some?
      && after.value.expires.value >= approvals[0].now + DaysFrom(approvals, 0) * DAY
  {
    ExpiryClosedForm(before, approvals);
    assert CountedFrom(approvals, 0) == approvals[0].now + DaysFrom(approvals, 0) * DAY;
  }

  /** No end is later than every end. */
  predicate NotEarlier(after: Option<int>, before: Option<int>) {
    after.None? || (before.Some? && after.value >= before.value)
  }

  /**
   * An approval never moves the expiry back, except in one case: a membership that has no expiry date without
   * being a lifetime one gets a finite date from a finite order.
   */
  lemma ExpiryNeverMovesBack(before: Term, a: Approval)
    requires a.durationDays.Some? ==> a.durationDays.value > 0
    ensures NotEarlier(Renew(Some(before), a).value.expires, before.expires) <==>
      !(before.expires.None? && !before.lifetime && a.durationDays.Some?)
    ensures before.expires.Some? && a.durationDays.Some? && !before.lifetime ==>
      Renew(Some(before), a).value.expires.value > before.expires.value
  {
  }

  /** Once for life, always for life: no later order shortens or replaces it. */
  lemma {:induction false} LifetimeIsForever(before: Term, approvals: seq<Approval>)
    requires before.lifetime && before.expires.None?
    ensures RenewAll(Some(before), approvals) == Some(before)
  {
    if approvals != [] {
      LifetimeIsForever(before, approvals[..|approvals| - 1]);
    }
  }

  /** A lifetime order makes any membership a lifetime one, and finite orders after it do nothing. */
  lemma LifetimeWins(before: Option<Term>, approvals: seq<Approval>, lifetime: Approval, later: seq<Approval>)
    requires lifetime.durationDays.None?
    ensures RenewAll(before, approvals + [lifetime] + later) == Some(Term(true, None))
    decreases |later|
  {
    var all := approvals + [lifetime] + later;
    if later == [] {
      assert all[..|all| - 1] == approvals;
    } else {
      assert all[..|all| - 1] == approvals + [lifetime] + later[..|later| - 1];
      LifetimeWins(before, approvals, lifetime, later[..|later| - 1]);
    }
  }
}
