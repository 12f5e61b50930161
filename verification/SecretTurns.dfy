/** What a lease on a secret command is good for: how long it keeps others away, and what its holder may do. */
module SecretTurns {
  import opened Common
  import opened SecretBroker

  /** Waiting, failed, or abandoned by a worker whose lease has run out, and tried fewer than five times. */
  predicate IsWaiting(c: Command, now: int) {
    && c.attempts <= 4
    && match c.status {
      case Requested => true
      case Failed => true
      case Processing => c.leaseExpires.Some? && c.leaseExpires.value < now
      case Succeeded => false
    }
  }

  /**
   * What a claim takes and for how long: half a minute unless asked otherwise, between five seconds and two
   * minutes.
   */
  lemma ClaimTakes(q: Queue, worker: Id, leaseMs: Option<int>, now: int, locked: set<Id>)
    requires Claim(q, worker, leaseMs, now, locked).1.Some?
    ensures var (after, got) := Claim(q, worker, leaseMs, now, locked);
      var id := got.value.id;
      && id in q.commands && id !in locked && IsWaiting(q.commands[id], now)
      && after == q.(commands := q.commands[id := after.commands[id]])
      && var was, c := q.commands[id], after.commands[id];
      && c == was.(status := Processing, attempts := was.attempts + 1, token := got.value.token,
                   leaseOwner := Some(worker), leaseExpires := c.leaseExpires, error := None)
      && c.leaseExpires.Some?
      && var length := c.leaseExpires.value - now;
      && 5000 <= length <= 120000
      && (leaseMs.None? ==> length == 30000)
      && (leaseMs.Some? && 5000 <= leaseMs.value <= 120000 ==> length == leaseMs.value)
      && (leaseMs.Some? && leaseMs.value < 5000 ==> length == 5000)
      && (leaseMs.Some? && leaseMs.value > 120000 ==> length == 120000)
  {
    FirstCandidateIsFirst(q, 0, now, locked);
  }

  /** A claim is granted whenever some command is waiting that nobody has locked. */
  lemma WaitingIsClaimed(steps: seq<Step>, worker: Id, leaseMs: Option<int>, now: int, locked: set<Id>, id: Id)
    requires var q := Run(EMPTY_WORLD, steps).queue;
      id in q.commands && id !in locked && IsWaiting(q.commands[id], now)
    ensures Claim(Run(EMPTY_WORLD, steps).queue, worker, leaseMs, now, locked).1.Some?
  {
    var q := Run(EMPTY_WORLD, steps).queue;
    ClaimIsGranted(steps, worker, leaseMs, now, locked);
    assert Candidate(q, id, now, locked);
  }

  // ----- Holding a lease -----

  /** The command is being worked on under this lease, until this time. */
  predicate HeldUntil(q: Queue, id: Id, worker: Id, token: nat, expires: int) {
    IsHeld(q, id, worker, token) && q.commands[id].leaseExpires == Some(expires)
  }

  predicate IsHeld(q: Queue, id: Id, worker: Id, token: nat) {
    && id in q.commands && q.commands[id].status == Processing
    && q.commands[id].leaseOwner == Some(worker) && q.commands[id].token == token
  }

  /** The receipt names the command's own target, key and digest, and the worker who made it. */
  predicate ReceiptIsFor(c: Command, id: Id, worker: Id, r: Receipt) {
    r.command == id && r.target == c.target && r.brokerKey == c.brokerKey && r.digest == c.digest && r.worker == worker
  }

  /** The step is the holder's own, or a claim after the lease has run out. */
  predicate MayDisturb(s: Step, id: Id, worker: Id, token: nat, expires: int) {
    match s
    case EnqueueStep(_) => false
    case ClaimStep(_, _, now, _) => expires < now
    case CompleteStep(v, t, r) => r.command == id && v == worker && t == token
    case FailStep(i, v, t, _) => i == id && v == worker && t == token
    case FinishStep(v, c, work) =>
      v == worker && c.token == token && (c.id == id || (work.Stored? && work.receipt.command == id))
  }

  lemma StepKeepsLease(w: World, s: Step, id: Id, worker: Id, token: nat, expires: int)
    requires HeldUntil(w.queue, id, worker, token, expires) && !MayDisturb(s, id, worker, token, expires)
    ensures id in Next(w, s).queue.commands && Next(w, s).queue.commands[id] == w.queue.commands[id]
  {
    if s.ClaimStep? {
      FirstCandidateIsFirst(w.queue, 0, s.now, s.locked);
    }
  }

  /** Until it runs out, a lease keeps everybody else away from the command, whatever they try. */
  lemma {:induction false} LeaseIsExclusive(w: World, steps: seq<Step>, id: Id, worker: Id, token: nat, expires: int)
    requires HeldUntil(w.queue, id, worker, token, expires)
    requires forall i :: 0 <= i < |steps| ==> !MayDisturb(steps[i], id, worker, token, expires)
    ensures id in Run(w, steps).queue.commands && Run(w, steps).queue.commands[id] == w.queue.commands[id]
    decreases |steps|
  {
    if steps != [] {
      StepKeepsLease(w, steps[0], id, worker, token, expires);
      forall i | 0 <= i < |steps[1..]| ensures !MayDisturb(steps[1..][i], id, worker, token, expires) {
        assert steps[1..][i] == steps[i + 1];
      }
      LeaseIsExclusive(Next(w, steps[0]), steps[1..], id, worker, token, expires);
    }
  }

  // ----- Finishing -----

  /**
   * A completion is accepted if and only if the command is held under exactly that lease and the receipt is for it.
   * Then the command has succeeded with the receipt's secret, which is also the one of its target, and its envelope
   * is gone.
   */
  lemma CompletedIff(q: Queue, worker: Id, token: nat, r: Receipt)
    ensures var (after, done) := Complete(q, worker, token, r);
      && (done <==> IsHeld(q, r.command, worker, token) && ReceiptIsFor(q.commands[r.command], r.command, worker, r))
      && (!done ==> after == q)
      && (done ==>
            && r.command in after.commands && r.target in after.secrets && after.secrets[r.target] == r.secret
            && var was, c := q.commands[r.command], after.commands[r.command];
            && c == was.(status := Succeeded, envelope := None, secret := Some(r.secret), leaseOwner := None,
                         leaseExpires := None)
            && after.commands == q.commands[r.command := c] && after.order == q.order
            && (r.command !in q.receipts ==> after.receipts == q.receipts[r.command := r]))
  {
  }

  /** A code of 3 to 80 capital letters, digits and underscores is stored as it is; any other becomes a general one. */
  predicate IsPlainCode(code: string) {
    && 3 <= |code| <= 80
    && forall i :: 0 <= i < |code| ==> IsUpper(code[i]) || IsDigit(code[i]) || code[i] == '_'
  }

  /** A failure is recorded exactly for the lease in force; the command waits again, with the error in its row. */
  lemma FailedIff(q: Queue, id: Id, worker: Id, token: nat, code: string)
    ensures var (after, failed) := Fail(q, id, worker, token, code);
      && (failed <==> IsHeld(q, id, worker, token))
      && (!failed ==> after == q)
      && (failed ==> after == q.(commands := q.commands[id :=
            q.commands[id].(status := Failed, leaseOwner := None, leaseExpires := None,
                            error := Some(if IsPlainCode(code) then code else "AI_SECRET_BROKER_FAILED"))]))
  {
  }

  /** A queued command waits with what was queued, and nothing queued before it is touched. */
  lemma QueuedWaits(q: Queue, n: NewCommand, now: int)
    requires n.id !in q.commands
    ensures var after := Enqueue(q, n);
      && n.id in after.commands && IsWaiting(after.commands[n.id], now)
      && after == q.(order := q.order + [n.id], commands := q.commands[n.id := after.commands[n.id]])
      && var c := after.commands[n.id];
      && c.target == n.target && c.brokerKey == n.brokerKey && c.digest == n.digest && c.envelope == Some(n.envelope)
      && c.attempts == 0 && c.token == 0 && c.secret.None? && c.error.None?
  {
  }

  /**
   * A worker who finishes in time succeeds: whatever the others do before the lease runs out, a turn that ends with a
   * receipt for the command completes it, and one that breaks down leaves it waiting with the error it broke with.
   */
  lemma TimelyTurn(w: World, others: seq<Step>, id: Id, worker: Id, token: nat, expires: int, work: Work)
    requires HeldUntil(w.queue, id, worker, token, expires)
    requires forall i :: 0 <= i < |others| ==> !MayDisturb(others[i], id, worker, token, expires)
    requires work.Stored? ==> ReceiptIsFor(w.queue.commands[id], id, worker, work.receipt)
    ensures var (after, succeeded) := Finish(Run(w, others).queue, worker, Claimed(id, token), work);
      && (succeeded <==> work.Stored?) && id in after.commands
      && var c := after.commands[id];
      && (work.Stored? ==> c.status == Succeeded && c.secret == Some(work.receipt.secret))
      && (work.Broken? ==>
            && c.status == Failed
            && c.error == Some(if IsPlainCode(work.code) then work.code else "AI_SECRET_BROKER_FAILED"))
  {
    hide Run, Fail, Complete;
    LeaseIsExclusive(w, others, id, worker, token, expires);
    var q := Run(w, others).queue;
    match work
    case Stored(r) => CompletedIff(q, worker, token, r);
    case Broken(code) => FailedIff(q, id, worker, token, code);
  }

  lemma FenceIsPlain()
    ensures IsPlainCode(FENCE_MISMATCH)
  {
  }

  /** A receipt that is not for the command ends the turn with a fence mismatch. */
  lemma MismatchFails(q: Queue, id: Id, worker: Id, token: nat, expires: int, r: Receipt)
    requires HeldUntil(q, id, worker, token, expires) && r.command == id
    requires !ReceiptIsFor(q.commands[id], id, worker, r)
    ensures var (after, succeeded) := Finish(q, worker, Claimed(id, token), Stored(r));
      && !succeeded && id in after.commands && after.commands[id].status == Failed
      && after.commands[id].error == Some("AI_SECRET_COMMAND_FENCE_MISMATCH")
  {
    hide Fail, Complete, IsPlainCode;
    FenceIsPlain();
    CompletedIff(q, worker, token, r);
    FailedIff(q, id, worker, token, FENCE_MISMATCH);
  }
}
