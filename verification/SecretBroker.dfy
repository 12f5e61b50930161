/**
 * The secret-command queue: workers claim a command under a lease, and a fencing token
 * decides which worker may still complete or fail it.
 */
module SecretBroker {
  import opened Common

  datatype Status = Requested | Processing | Succeeded | Failed

  datatype Envelope = Envelope(wrappedDataKey: string, iv: string, ciphertext: string, authTag: string)

  datatype Secret = Secret(reference: string, fingerprint: string)

  datatype Command = Command(
    target: Id, brokerKey: Id, digest: string, envelope: Option<Envelope>, status: Status, attempts: nat,
    leaseOwner: Option<Id>, leaseExpires: Option<int>, token: nat, secret: Option<Secret>, error: Option<string>)

  datatype Receipt = Receipt(command: Id, target: Id, brokerKey: Id, digest: string, secret: Secret, worker: Id)

  /** `order` is the queue order (request time, then id); `secrets` the secret of each connection revision. */
  datatype Queue = Queue(
    order: seq<Id>, commands: map<Id, Command>, receipts: map<Id, Receipt>, secrets: map<Id, Secret>)

  const EMPTY_QUEUE := Queue([], map[], map[], map[])
  const MAX_ATTEMPTS := 5

  datatype NewCommand = NewCommand(id: Id, target: Id, brokerKey: Id, digest: string, envelope: Envelope)

  function Enqueue(q: Queue, n: NewCommand): Queue {
    if n.id in q.commands then q
    else
      var row := Command(n.target, n.brokerKey, n.digest, Some(n.envelope), Requested, 0, None, None, 0, None, None);
      q.(order := q.order + [n.id], commands := q.commands[n.id := row])
  }

  predicate Claimable(c: Command, now: int) {
    && (c.status == Requested || c.status == Failed
        || (c.status == Processing && c.leaseExpires.Some? && c.leaseExpires.value < now))
    && c.attempts < MAX_ATTEMPTS
  }

  /** A row the claiming query may return: eligible, and not locked by another transaction. */
  predicate Candidate(q: Queue, id: Id, now: int, locked: set<Id>) {
    id in q.commands && id !in locked && Claimable(q.commands[id], now)
  }

  function FirstCandidate(q: Queue, from: nat, now: int, locked: set<Id>): Option<Id>
    requires from <= |q.order|
    decreases |q.order| - from
  {
    if from == |q.order| then None
    else if Candidate(q, q.order[from], now, locked) then Some(q.order[from])
    else FirstCandidate(q, from + 1, now, locked)
  }

  function LeaseMilliseconds(requested: Option<int>): int {
    var ms := if requested.Some? then requested.value else 30_000;
    if ms < 5_000 then 5_000 else if ms > 120_000 then 120_000 else ms
  }

  function Lease(c: Command, worker: Id, now: int, leaseMs: Option<int>): Command {
    c.(status := Processing, attempts := c.attempts + 1, leaseOwner := Some(worker),
       leaseExpires := Some(now + LeaseMilliseconds(leaseMs)), token := c.token + 1, error := None)
  }

  datatype Claimed = Claimed(id: Id, token: nat)

  function Claim(q: Queue, worker: Id, leaseMs: Option<int>, now: int, locked: set<Id>): (Queue, Option<Claimed>) {
    match FirstCandidate(q, 0, now, locked)
    case None => (q, None)
    case Some(id) =>
      if id !in q.commands then (q, None)
      else
        var row := Lease(q.commands[id], worker, now, leaseMs);
        (q.(commands := q.commands[id := row]), Some(Claimed(id, row.token)))
  }

  /** The row `id` is being processed under exactly this lease. */
  predicate Holds(q: Queue, id: Id, worker: Id, token: nat) {
    && id in q.commands && q.commands[id].status == Processing
    && q.commands[id].leaseOwner == Some(worker) && q.commands[id].token == token
  }

  predicate Accepts(q: Queue, worker: Id, token: nat, r: Receipt) {
    && Holds(q, r.command, worker, token)
    && q.commands[r.command].target == r.target && q.commands[r.command].brokerKey == r.brokerKey
    && q.commands[r.command].digest == r.digest && r.worker == worker
  }

  function Finished(c: Command, secret: Secret): Command {
    c.(status := Succeeded, envelope := None, secret := Some(secret), leaseOwner := None, leaseExpires := None)
  }

  /** Completion, refused with a fence mismatch (`false`) unless the receipt and the lease fit the row. */
  function Complete(q: Queue, worker: Id, token: nat, r: Receipt): (Queue, bool) {
    if !Accepts(q, worker, token, r) then (q, false)
    else
      (Queue(q.order, q.commands[r.command := Finished(q.commands[r.command], r.secret)],
             if r.command in q.receipts then q.receipts else q.receipts[r.command := r],
             q.secrets[r.target := r.secret]),
       true)
  }

  const FENCE_MISMATCH := "AI_SECRET_COMMAND_FENCE_MISMATCH"

  predicate IsErrorCode(s: string) {
    3 <= |s| <= 80 && forall i :: 0 <= i < |s| ==> 'A' <= s[i] <= 'Z' || '0' <= s[i] <= '9' || s[i] == '_'
  }

  function Fail(q: Queue, id: Id, worker: Id, token: nat, code: string): (Queue, bool) {
    if !Holds(q, id, worker, token) then (q, false)
    else
      var error := if IsErrorCode(code) then code else "AI_SECRET_BROKER_FAILED";
      var row := q.commands[id].(status := Failed, error := Some(error), leaseOwner := None, leaseExpires := None);
      (q.(commands := q.commands[id := row]), true)
  }

  /** What decrypting and storing the envelope produced. */
  datatype Work = Stored(receipt: Receipt) | Broken(code: string)

  /** The end of a worker's turn, however much later: completion, and the error path when it throws. */
  function Finish(q: Queue, worker: Id, c: Claimed, work: Work): (Queue, bool) {
    match work
    case Broken(code) => (Fail(q, c.id, worker, c.token, code).0, false)
    case Stored(r) =>
      var done := Complete(q, worker, c.token, r);
      if done.1 then done else (Fail(q, c.id, worker, c.token, FENCE_MISMATCH).0, false)
  }

  // ----- Runs, with a log of what was granted -----

  datatype Event =
    | ClaimEvent(id: Id, worker: Id, token: nat)
    | DoneEvent(id: Id, worker: Id, token: nat, target: Id, secret: Secret)

  datatype World = World(queue: Queue, log: seq<Event>)

  const EMPTY_WORLD := World(EMPTY_QUEUE, [])

  /** Steps of any number of workers; a crash is a claim that is never finished, a stale worker a late finish. */
  datatype Step =
    | EnqueueStep(command: NewCommand)
    | ClaimStep(worker: Id, leaseMs: Option<int>, now: int, locked: set<Id>)
    | CompleteStep(worker: Id, token: nat, receipt: Receipt)
    | FailStep(id: Id, worker: Id, token: nat, code: string)
    | FinishStep(worker: Id, claimed: Claimed, work: Work)

  function Record(w: World, done: (Queue, bool), worker: Id, token: nat, r: Receipt): World {
    World(done.0, if done.1 then w.log + [DoneEvent(r.command, worker, token, r.target, r.secret)] else w.log)
  }

  function Next(w: World, s: Step): World {
    match s
    case EnqueueStep(n) => w.(queue := Enqueue(w.queue, n))
    case ClaimStep(worker, leaseMs, now, locked) =>
      var (queue, claimed) := Claim(w.queue, worker, leaseMs, now, locked);
      World(queue, if claimed.Some? then w.log + [ClaimEvent(claimed.value.id, worker, claimed.value.token)] else w.log)
    case CompleteStep(worker, token, r) => Record(w, Complete(w.queue, worker, token, r), worker, token, r)
    case FailStep(id, worker, token, code) => w.(queue := Fail(w.queue, id, worker, token, code).0)
    case FinishStep(worker, c, work) =>
      if work.Stored? then Record(w, Finish(w.queue, worker, c, work), worker, c.token, work.receipt)
      else w.(queue := Finish(w.queue, worker, c, work).0)
  }

  function Run(w: World, steps: seq<Step>): World
    decreases |steps|
  {
    if steps == [] then w else Run(Next(w, steps[0]), steps[1..])
  }

  // ----- Reading the log -----

  function Claims(log: seq<Event>, id: Id): nat {
    if log == [] then 0
    else
      var n := |log| - 1;
      Claims(log[..n], id) + if log[n].ClaimEvent? && log[n].id == id then 1 else 0
  }

  function Completions(log: seq<Event>, id: Id): nat {
    if log == [] then 0
    else
      var n := |log| - 1;
      Completions(log[..n], id) + if log[n].DoneEvent? && log[n].id == id then 1 else 0
  }

  /** The latest claim of a command: its worker and token. */
  function LastClaim(log: seq<Event>, id: Id): Option<(Id, nat)> {
    if log == [] then None
    else
      var n := |log| - 1;
      if log[n].ClaimEvent? && log[n].id == id then Some((log[n].worker, log[n].token)) else LastClaim(log[..n], id)
  }

  /** The secret of the latest completion for a connection revision. */
  function LastSecret(log: seq<Event>, target: Id): Option<Secret> {
    if log == [] then None
    else
      var n := |log| - 1;
      if log[n].DoneEvent? && log[n].target == target then Some(log[n].secret) else LastSecret(log[..n], target)
  }

  // ----- The invariant -----

  /** A command row against the log: its token counts its claims, its lease is the latest claim. */
  predicate RowOk(w: World, id: Id)
    requires id in w.queue.commands
  {
    var c := w.queue.commands[id];
    && c.token == c.attempts == Claims(w.log, id) <= MAX_ATTEMPTS
    && (c.status == Processing ==>
          c.leaseOwner.Some? && c.leaseExpires.Some? && LastClaim(w.log, id) == Some((c.leaseOwner.value, c.token)))
    && (c.status != Processing ==> c.leaseOwner == None)
    && (c.status == Succeeded <==> c.envelope == None)
    && (c.status == Succeeded <==> c.secret.Some?)
    && (c.status == Succeeded <==> id in w.queue.receipts)
    && (id in w.queue.receipts ==> ReceiptFits(id, c, w.queue.receipts[id]))
    && Completions(w.log, id) == (if c.status == Succeeded then 1 else 0)
  }

  predicate ReceiptFits(id: Id, c: Command, r: Receipt) {
    r.command == id && r.target == c.target && r.brokerKey == c.brokerKey && r.digest == c.digest
      && Some(r.secret) == c.secret
  }

  /** Tokens number the claims of a command; a completion came from the latest claim at its time. */
  predicate EventOk(log: seq<Event>, i: nat)
    requires i < |log|
  {
    match log[i]
    case ClaimEvent(id, _, token) => token == Claims(log[..i], id) + 1
    case DoneEvent(id, worker, token, _, _) => LastClaim(log[..i], id) == Some((worker, token))
  }

  ghost predicate LogInv(log: seq<Event>) {
    forall i :: 0 <= i < |log| ==> EventOk(log, i)
  }

  ghost predicate RowsInv(w: World) {
    && (forall id :: id in w.queue.commands ==> RowOk(w, id))
    && (forall id :: id !in w.queue.commands ==>
        Claims(w.log, id) == 0 && Completions(w.log, id) == 0 && id !in w.queue.receipts)
  }

  ghost predicate SecretsInv(w: World) {
    forall target :: LastSecret(w.log, target) ==
      if target in w.queue.secrets then Some(w.queue.secrets[target]) else None
  }

  ghost predicate OrderInv(q: Queue) {
    (forall id :: id in q.order ==> id in q.commands) && (forall id :: id in q.commands ==> id in q.order)
  }

  ghost predicate Inv(w: World) {
    RowsInv(w) && SecretsInv(w) && LogInv(w.log) && OrderInv(w.queue)
  }

  lemma Appended(log: seq<Event>, e: Event)
    ensures forall id :: Claims(log + [e], id) == Claims(log, id) + if e.ClaimEvent? && e.id == id then 1 else 0
    ensures forall id ::
      Completions(log + [e], id) == Completions(log, id) + if e.DoneEvent? && e.id == id then 1 else 0
    ensures forall id ::
      LastClaim(log + [e], id) == if e.ClaimEvent? && e.id == id then Some((e.worker, e.token)) else LastClaim(log, id)
    ensures forall t ::
      LastSecret(log + [e], t) == if e.DoneEvent? && e.target == t then Some(e.secret) else LastSecret(log, t)
  {
    assert (log + [e])[..|log|] == log;
  }

  lemma LogGrows(log: seq<Event>, e: Event)
    requires LogInv(log)
    requires e.ClaimEvent? ==> e.token == Claims(log, e.id) + 1
    requires e.DoneEvent? ==> LastClaim(log, e.id) == Some((e.worker, e.token))
    ensures LogInv(log + [e])
  {
    forall i | 0 <= i < |log + [e]| ensures EventOk(log + [e], i) {
      if i < |log| {
        assert (log + [e])[..i] == log[..i];
        assert EventOk(log, i);
      } else {
        assert (log + [e])[..i] == log;
      }
    }
  }

  lemma {:induction false} FirstCandidateIsFirst(q: Queue, from: nat, now: int, locked: set<Id>)
    requires from <= |q.order|
    ensures match FirstCandidate(q, from, now, locked)
            case None => forall i :: from <= i < |q.order| ==> !Candidate(q, q.order[i], now, locked)
            case Some(id) =>
              exists i :: from <= i < |q.order| && q.order[i] == id && Candidate(q, id, now, locked)
                          && forall j :: from <= j < i ==> !Candidate(q, q.order[j], now, locked)
    decreases |q.order| - from
  {
    if from < |q.order| && !Candidate(q, q.order[from], now, locked) {
      FirstCandidateIsFirst(q, from + 1, now, locked);
    }
  }

  lemma LeaseKeepsRows(w: World, next: World, id: Id, worker: Id, now: int, leaseMs: Option<int>)
    requires RowsInv(w) && id in w.queue.commands && Claimable(w.queue.commands[id], now)
    requires next.queue ==
      w.queue.(commands := w.queue.commands[id := Lease(w.queue.commands[id], worker, now, leaseMs)])
    requires next.log == w.log + [ClaimEvent(id, worker, w.queue.commands[id].token + 1)]
    ensures RowsInv(next)
  {
    Appended(w.log, ClaimEvent(id, worker, w.queue.commands[id].token + 1));
    assert RowOk(w, id);
    forall other | other in next.queue.commands ensures RowOk(next, other) {
      assert RowOk(w, other);
    }
  }

  lemma ClaimKeepsInv(w: World, worker: Id, leaseMs: Option<int>, now: int, locked: set<Id>)
    requires Inv(w)
    ensures Inv(Next(w, ClaimStep(worker, leaseMs, now, locked)))
  {
    var next := Next(w, ClaimStep(worker, leaseMs, now, locked));
    var found := FirstCandidate(w.queue, 0, now, locked);
    assert found.Some? ==> Candidate(w.queue, found.value, now, locked) by {
      FirstCandidateIsFirst(w.queue, 0, now, locked);
    }
    if found.Some? {
      var e := ClaimEvent(found.value, worker, w.queue.commands[found.value].token + 1);
      assert next.log == w.log + [e];
      LeaseKeepsRows(w, next, found.value, worker, now, leaseMs);
      assert SecretsInv(next) by {
        Appended(w.log, e);
      }
      assert RowOk(w, found.value);
      LogGrows(w.log, e);
    }
  }

  lemma FinishedKeepsRows(w: World, next: World, worker: Id, token: nat, r: Receipt)
    requires RowsInv(w) && Accepts(w.queue, worker, token, r)
    requires next == Next(w, CompleteStep(worker, token, r))
    ensures RowsInv(next)
  {
    Appended(w.log, DoneEvent(r.command, worker, token, r.target, r.secret));
    assert RowOk(w, r.command);
    forall id | id in next.queue.commands ensures RowOk(next, id) {
      assert RowOk(w, id);
    }
  }

  lemma CompleteKeepsInv(w: World, worker: Id, token: nat, r: Receipt)
    requires Inv(w)
    ensures Inv(Next(w, CompleteStep(worker, token, r)))
  {
    var next := Next(w, CompleteStep(worker, token, r));
    if Accepts(w.queue, worker, token, r) {
      var e := DoneEvent(r.command, worker, token, r.target, r.secret);
      assert next.log == w.log + [e];
      FinishedKeepsRows(w, next, worker, token, r);
      assert SecretsInv(next) by {
        Appended(w.log, e);
      }
      assert RowOk(w, r.command);
      LogGrows(w.log, e);
    }
  }

  lemma FailKeepsInv(w: World, id: Id, worker: Id, token: nat, code: string)
    requires Inv(w)
    ensures Inv(Next(w, FailStep(id, worker, token, code)))
  {
    var next := Next(w, FailStep(id, worker, token, code));
    forall other | other in next.queue.commands ensures RowOk(next, other) {
      assert RowOk(w, other);
    }
  }

  /** A worker's finish is one completion or one failure. */
  lemma FinishIsOneStep(w: World, worker: Id, c: Claimed, work: Work)
    ensures Next(w, FinishStep(worker, c, work)) ==
      if work.Stored? && Complete(w.queue, worker, c.token, work.receipt).1 then
        Next(w, CompleteStep(worker, c.token, work.receipt))
      else Next(w, FailStep(c.id, worker, c.token, if work.Stored? then FENCE_MISMATCH else work.code))
  {
  }

  lemma NextKeepsInv(w: World, s: Step)
    requires Inv(w)
    ensures Inv(Next(w, s))
  {
    match s
    case EnqueueStep(n) =>
      var next := Next(w, s);
      forall id | id in next.queue.commands ensures RowOk(next, id) {
        if id in w.queue.commands {
          assert RowOk(w, id);
        } else {
          NeverClaimed(w.log, id);
        }
      }
    case ClaimStep(worker, leaseMs, now, locked) => ClaimKeepsInv(w, worker, leaseMs, now, locked);
    case CompleteStep(worker, token, r) => CompleteKeepsInv(w, worker, token, r);
    case FailStep(id, worker, token, code) => FailKeepsInv(w, id, worker, token, code);
    case FinishStep(worker, c, work) =>
      FinishIsOneStep(w, worker, c, work);
      if work.Stored? {
        CompleteKeepsInv(w, worker, c.token, work.receipt);
      }
      FailKeepsInv(w, c.id, worker, c.token, if work.Stored? then FENCE_MISMATCH else work.code);
  }

  lemma {:induction false} NeverClaimed(log: seq<Event>, id: Id)
    ensures LastClaim(log, id) == None <==> Claims(log, id) == 0
  {
    if log != [] {
      NeverClaimed(log[..|log| - 1], id);
    }
  }

  lemma {:induction false} RunKeepsInv(w: World, steps: seq<Step>)
    requires Inv(w)
    ensures Inv(Run(w, steps))
    decreases |steps|
  {
    if steps != [] {
      NextKeepsInv(w, steps[0]);
      RunKeepsInv(Next(w, steps[0]), steps[1..]);
    }
  }

  // ----- Fencing -----

  lemma EmptyWorldInv()
    ensures Inv(EMPTY_WORLD)
  {
  }

  lemma {:induction false} ClaimsMonotone(log: seq<Event>, later: seq<Event>, id: Id)
    requires log <= later
    ensures Claims(log, id) <= Claims(later, id)
    decreases |later|
  {
    if log != later {
      ClaimsMonotone(log, later[..|later| - 1], id);
    }
  }

  /** A claim's token counts the claims of its command up to and including it. */
  lemma TokenCounts(log: seq<Event>, i: nat)
    requires LogInv(log) && i < |log| && log[i].ClaimEvent?
    ensures log[i].token == Claims(log[..i + 1], log[i].id) == Claims(log[..i], log[i].id) + 1
  {
    assert EventOk(log, i);
    assert log[..i + 1][..i] == log[..i];
  }

  lemma LogTokensIncrease(log: seq<Event>, i: nat, j: nat)
    requires LogInv(log) && i < j < |log|
    requires log[i].ClaimEvent? && log[j].ClaimEvent? && log[i].id == log[j].id
    ensures log[i].token < log[j].token <= Claims(log, log[j].id)
  {
    TokenCounts(log, i);
    TokenCounts(log, j);
    ClaimsMonotone(log[..i + 1], log[..j], log[i].id);
    ClaimsMonotone(log[..j + 1], log, log[i].id);
  }

  lemma AtMostFiveClaims(w: World, id: Id)
    requires RowsInv(w)
    ensures Claims(w.log, id) <= MAX_ATTEMPTS
  {
    if id in w.queue.commands {
      assert RowOk(w, id);
    }
  }

  /** Every claim of a command carries a higher token than all earlier claims of it, and there are at most five. */
  lemma TokensStrictlyIncrease(steps: seq<Step>, i: nat, j: nat)
    requires var log := Run(EMPTY_WORLD, steps).log;
      i < j < |log| && log[i].ClaimEvent? && log[j].ClaimEvent? && log[i].id == log[j].id
    ensures var log := Run(EMPTY_WORLD, steps).log;
      log[i].token < log[j].token <= MAX_ATTEMPTS
  {
    EmptyWorldInv();
    RunKeepsInv(EMPTY_WORLD, steps);
    LogTokensIncrease(Run(EMPTY_WORLD, steps).log, i, j);
    AtMostFiveClaims(Run(EMPTY_WORLD, steps), Run(EMPTY_WORLD, steps).log[j].id);
  }

  /** Only the worker and token of the latest claim can complete or fail a command. */
  lemma OnlyLatestLease(steps: seq<Step>, id: Id, worker: Id, token: nat)
    ensures var w := Run(EMPTY_WORLD, steps);
      && Claims(w.log, id) <= MAX_ATTEMPTS && Completions(w.log, id) <= 1
      && (forall r: Receipt :: r.command == id && Complete(w.queue, worker, token, r).1 ==>
          LastClaim(w.log, id) == Some((worker, token)))
      && (forall code: string :: Fail(w.queue, id, worker, token, code).1 ==>
          LastClaim(w.log, id) == Some((worker, token)))
  {
    var w := Run(EMPTY_WORLD, steps);
    EmptyWorldInv();
    RunKeepsInv(EMPTY_WORLD, steps);
    if id in w.queue.commands {
      assert RowOk(w, id);
    }
  }

  /** Rows are never removed, tokens never fall, and a succeeded row and its receipt never change. */
  ghost predicate Advances(q: Queue, later: Queue) {
    && (forall id :: id in q.commands ==>
          && id in later.commands && q.commands[id].token <= later.commands[id].token
          && (q.commands[id].status == Succeeded ==> later.commands[id] == q.commands[id]))
    && (forall id :: id in q.receipts ==> id in later.receipts && later.receipts[id] == q.receipts[id])
  }

  lemma ClaimAdvances(q: Queue, worker: Id, leaseMs: Option<int>, now: int, locked: set<Id>)
    ensures Advances(q, Claim(q, worker, leaseMs, now, locked).0)
  {
    FirstCandidateIsFirst(q, 0, now, locked);
  }

  lemma CompleteAdvances(q: Queue, worker: Id, token: nat, r: Receipt)
    ensures Advances(q, Complete(q, worker, token, r).0)
  {
  }

  lemma FailAdvances(q: Queue, id: Id, worker: Id, token: nat, code: string)
    ensures Advances(q, Fail(q, id, worker, token, code).0)
  {
  }

  lemma FinishAdvances(q: Queue, worker: Id, c: Claimed, work: Work)
    ensures Advances(q, Finish(q, worker, c, work).0)
  {
    if work.Broken? {
      FailAdvances(q, c.id, worker, c.token, work.code);
    } else {
      CompleteAdvances(q, worker, c.token, work.receipt);
      FailAdvances(q, c.id, worker, c.token, FENCE_MISMATCH);
    }
  }

  lemma NextAdvances(w: World, s: Step)
    ensures Advances(w.queue, Next(w, s).queue)
  {
    match s
    case EnqueueStep(_) =>
    case ClaimStep(worker, leaseMs, now, locked) => ClaimAdvances(w.queue, worker, leaseMs, now, locked);
    case CompleteStep(worker, token, r) => CompleteAdvances(w.queue, worker, token, r);
    case FailStep(id, worker, token, code) => FailAdvances(w.queue, id, worker, token, code);
    case FinishStep(worker, c, work) => FinishAdvances(w.queue, worker, c, work);
  }

  lemma {:induction false} RunAdvances(w: World, steps: seq<Step>)
    ensures Advances(w.queue, Run(w, steps).queue)
    decreases |steps|
  {
    if steps != [] {
      NextAdvances(w, steps[0]);
      RunAdvances(Next(w, steps[0]), steps[1..]);
    }
  }

  /** A step by which `worker` acts on `id` under `token`, at whatever later time. */
  predicate ActsUnder(s: Step, id: Id, worker: Id, token: nat) {
    match s
    case CompleteStep(v, t, r) => r.command == id && v == worker && t == token
    case FailStep(i, v, t, _) => i == id && v == worker && t == token
    case FinishStep(v, c, work) =>
      c == Claimed(id, token) && v == worker && (work.Stored? ==> work.receipt.command == id)
    case _ => false
  }

  /** Once a command was claimed again or finished, nothing an older lease does, error path included, has any effect. */
  lemma StaleWorkerIsHarmless(before: seq<Step>, after: seq<Step>, id: Id, worker: Id, token: nat, s: Step)
    requires var q := Run(EMPTY_WORLD, before).queue;
      id in q.commands && (token < q.commands[id].token || q.commands[id].status == Succeeded)
    requires ActsUnder(s, id, worker, token)
    ensures var w := Run(Run(EMPTY_WORLD, before), after); Next(w, s) == w
  {
    RunAdvances(Run(EMPTY_WORLD, before), after);
  }

  /** A succeeded command stays as it is: envelope erased, one receipt, which its row and the log agree with. */
  lemma SuccessIsFinal(before: seq<Step>, after: seq<Step>, id: Id)
    requires var q := Run(EMPTY_WORLD, before).queue; id in q.commands && q.commands[id].status == Succeeded
    ensures var q, later := Run(EMPTY_WORLD, before).queue, Run(Run(EMPTY_WORLD, before), after);
      && id in later.queue.commands && later.queue.commands[id] == q.commands[id]
      && later.queue.commands[id].envelope == None && later.queue.commands[id].leaseOwner == None
      && id in q.receipts && id in later.queue.receipts && later.queue.receipts[id] == q.receipts[id]
      && ReceiptFits(id, q.commands[id], q.receipts[id])
      && Completions(later.log, id) == 1
  {
    var w := Run(EMPTY_WORLD, before);
    EmptyWorldInv();
    RunKeepsInv(EMPTY_WORLD, before);
    RunKeepsInv(w, after);
    RunAdvances(w, after);
    assert RowOk(w, id) && RowOk(Run(w, after), id);
  }

  /** Receipts, erased envelopes and succeeded rows are the same thing; revisions hold the last completed secret. */
  lemma CustodyIsConsistent(steps: seq<Step>, id: Id, target: Id)
    ensures var w := Run(EMPTY_WORLD, steps);
      && (id in w.queue.commands ==>
            var c := w.queue.commands[id];
            && (c.status == Succeeded <==> id in w.queue.receipts)
            && (c.status == Succeeded <==> c.envelope == None)
            && (c.status == Succeeded <==> Completions(w.log, id) == 1))
      && LastSecret(w.log, target) == (if target in w.queue.secrets then Some(w.queue.secrets[target]) else None)
  {
    var w := Run(EMPTY_WORLD, steps);
    EmptyWorldInv();
    RunKeepsInv(EMPTY_WORLD, steps);
    if id in w.queue.commands {
      assert RowOk(w, id);
    }
  }

  /** A claim is granted exactly when some unlocked command is claimable, and it raises that command's token by one. */
  lemma ClaimIsGranted(steps: seq<Step>, worker: Id, leaseMs: Option<int>, now: int, locked: set<Id>)
    ensures var q := Run(EMPTY_WORLD, steps).queue;
      var (next, got) := Claim(q, worker, leaseMs, now, locked);
      && (got.Some? <==> exists id :: Candidate(q, id, now, locked))
      && (got == None ==> next == q)
      && (got.Some? ==>
            && Candidate(q, got.value.id, now, locked) && got.value.token == q.commands[got.value.id].token + 1
            && Holds(next, got.value.id, worker, got.value.token)
            && next.commands[got.value.id].leaseExpires.value >= now + 5_000)
  {
    var q := Run(EMPTY_WORLD, steps).queue;
    EmptyWorldInv();
    RunKeepsInv(EMPTY_WORLD, steps);
    FirstCandidateIsFirst(q, 0, now, locked);
    if id :| Candidate(q, id, now, locked) {
      assert id in q.order;
      var i :| 0 <= i < |q.order| && q.order[i] == id;
    }
  }

  // ----- The tables -----

  class SecretCommandStore {
    var order: seq<Id>
    var commands: map<Id, Command>
    var receipts: map<Id, Receipt>
    var secrets: map<Id, Secret>

    function State(): Queue
      reads this
    {
      Queue(order, commands, receipts, secrets)
    }

    constructor ()
      ensures State() == EMPTY_QUEUE
    {
      order, commands, receipts, secrets := [], map[], map[], map[];
    }

    method ClaimSecretCommand(worker: Id, leaseMs: Option<int>, now: int, locked: set<Id>)
      returns (claimed: Option<Claimed>)
      modifies this
      ensures (State(), claimed) == Claim(old(State()), worker, leaseMs, now, locked)
    {
      var i := 0;
      while i < |order| && !Candidate(State(), order[i], now, locked)
        invariant 0 <= i <= |order|
        invariant FirstCandidate(State(), i, now, locked) == FirstCandidate(State(), 0, now, locked)
      {
        i := i + 1;
      }
      if i == |order| {
        return None;
      }
      var id := order[i];
      var row := Lease(commands[id], worker, now, leaseMs);
      commands := commands[id := row];
      claimed := Some(Claimed(id, row.token));
    }

    method CompleteSecretCommand(worker: Id, token: nat, r: Receipt) returns (completed: bool)
      modifies this
      ensures (State(), completed) == Complete(old(State()), worker, token, r)
    {
      if r.command !in commands {
        return false;
      }
      var row := commands[r.command];
      if row.status != Processing || row.leaseOwner != Some(worker) || row.token != token {
        return false;
      }
      if row.target != r.target || row.brokerKey != r.brokerKey || row.digest != r.digest || r.worker != worker {
        return false;
      }
      if r.command !in receipts {
        receipts := receipts[r.command := r];
      }
      secrets := secrets[row.target := r.secret];
      commands := commands[r.command := Finished(row, r.secret)];
      completed := true;
    }

    method FailSecretCommand(id: Id, worker: Id, token: nat, code: string) returns (failed: bool)
      modifies this
      ensures (State(), failed) == Fail(old(State()), id, worker, token, code)
    {
      if id !in commands || commands[id].status != Processing || commands[id].leaseOwner != Some(worker)
        || commands[id].token != token {
        return false;
      }
      var error := if IsErrorCode(code) then code else "AI_SECRET_BROKER_FAILED";
      commands := commands[id := commands[id].(status := Failed, error := Some(error), leaseOwner := None,
                                               leaseExpires := None)];
      failed := true;
    }

    /** One undisturbed turn of a worker; `work` is what processing the claimed envelope came to. */
    method ProcessNextSecretCommand(worker: Id, now: int, locked: set<Id>, work: Work)
      returns (processed: bool, succeeded: bool)
      modifies this
      ensures var (q, claimed) := Claim(old(State()), worker, None, now, locked);
        && processed == claimed.Some?
        && (State(), succeeded) == if claimed.Some? then Finish(q, worker, claimed.value, work) else (q, false)
    {
      var claimed := ClaimSecretCommand(worker, None, now, locked);
      if claimed.None? {
        return false, false;
      }
      processed, succeeded := true, false;
      var code := FENCE_MISMATCH;
      match work {
        case Stored(r) => succeeded := CompleteSecretCommand(worker, claimed.value.token, r);
        case Broken(c) => code := c;
      }
      if !succeeded {
        var _ := FailSecretCommand(claimed.value.id, worker, claimed.value.token, code);
      }
    }
  }
}
