/**
 * The login rate limiter: one row per hashed bucket key, changed by a single upsert whose right-hand
 * sides all read the row as it was. Times are in milliseconds, the settings in seconds.
 */
module RateLimit {
  import opened Common

  /** Column `blocked_until` is a nullable time stamp. */
  datatype Bucket = Bucket(started: int, count: nat, blocked: Option<int>)

  datatype Policy = Policy(maxAttempts: int, windowSeconds: int, blockSeconds: int) {
    predicate Positive() {
      maxAttempts >= 1 && windowSeconds >= 1 && blockSeconds >= 1
    }

    function Window(): int {
      1000 * windowSeconds
    }

    function Block(): int {
      1000 * blockSeconds
    }
  }

  datatype Verdict = Verdict(allowed: bool, retryAfterSeconds: int)

  predicate Expired(p: Policy, b: Bucket, now: int) {
    b.started <= now - p.Window()
  }

  /** The upsert. A running block wins over everything; otherwise an expired window starts afresh. */
  function Hit(p: Policy, row: Option<Bucket>, now: int): Bucket {
    match row
    case None => Bucket(now, 1, None)
    case Some(b) =>
      Bucket(
        if Expired(p, b, now) then now else b.started,
        if Expired(p, b, now) then 1 else b.count + 1,
        if b.blocked.Some? && b.blocked.value > now then b.blocked
        else if Expired(p, b, now) then None
        else if b.count + 1 > p.maxAttempts then Some(now + p.Block())
        else None)
  }

  function CeilDiv(a: int, b: int): int
    requires b > 0
  {
    -((-a) / b)
  }

  function Max(a: int, b: int): int {
    if a >= b then a else b
  }

  function Judge(b: Bucket, now: int): Verdict {
    match b.blocked
    case None => Verdict(true, 0)
    case Some(until) => Verdict(until <= now, Max(1, CeilDiv(until - now, 1000)))
  }

  function Reduce(current: Verdict, results: seq<Verdict>): Verdict
    decreases |results|
  {
    if results == [] then current
    else Reduce(if results[0].retryAfterSeconds > current.retryAfterSeconds then results[0] else current, results[1..])
  }

  // ----- The combined verdict -----

  /** What the database hands back after an upsert: no block, or one that is still running. */
  predicate Live(b: Bucket, now: int) {
    b.blocked.Some? ==> b.blocked.value > now
  }

  /** A stored block never looks elapsed to the call that stored it, so a verdict with a wait is a refusal. */
  lemma HitIsLive(p: Policy, row: Option<Bucket>, now: int)
    requires p.Positive()
    ensures Live(Hit(p, row, now), now)
    ensures Judge(Hit(p, row, now), now).allowed <==> Judge(Hit(p, row, now), now).retryAfterSeconds == 0
    ensures Judge(Hit(p, row, now), now).retryAfterSeconds >= 0
  {
  }

  /** The wait is the shortest whole number of seconds after which the block is over. */
  lemma WaitIsShortest(b: Bucket, now: int)
    requires Live(b, now) && b.blocked.Some?
    ensures now + 1000 * Judge(b, now).retryAfterSeconds >= b.blocked.value
    ensures now + 1000 * (Judge(b, now).retryAfterSeconds - 1) < b.blocked.value
  {
  }

  predicate Coherent(v: Verdict) {
    v.retryAfterSeconds >= 0 && (v.allowed <==> v.retryAfterSeconds == 0)
  }

  /** The combination allows exactly when every bucket does, and otherwise asks for the longest wait. */
  lemma {:induction false} ReduceIsStrictest(current: Verdict, results: seq<Verdict>)
    requires Coherent(current) && forall i :: 0 <= i < |results| ==> Coherent(results[i])
    ensures var r := Reduce(current, results);
      && Coherent(r)
      && (r.allowed <==> current.allowed && forall i :: 0 <= i < |results| ==> results[i].allowed)
      && r.retryAfterSeconds >= current.retryAfterSeconds
      && (forall i :: 0 <= i < |results| ==> r.retryAfterSeconds >= results[i].retryAfterSeconds)
      && (r == current || r in results)
    decreases |results|
  {
    if results != [] {
      var next := if results[0].retryAfterSeconds > current.retryAfterSeconds then results[0] else current;
      ReduceIsStrictest(next, results[1..]);
      forall i | 0 <= i < |results|
        ensures Reduce(current, results).retryAfterSeconds >= results[i].retryAfterSeconds
      {
        if i > 0 {
          assert results[i] == results[1..][i - 1];
        }
      }
      assert (forall i :: 0 <= i < |results| ==> results[i].allowed) <==>
        results[0].allowed && forall i :: 0 <= i < |results[1..]| ==> results[1..][i].allowed by {
        if results[0].allowed && forall i :: 0 <= i < |results[1..]| ==> results[1..][i].allowed {
          forall i | 0 <= i < |results| ensures results[i].allowed {
            if i > 0 {
              assert results[i] == results[1..][i - 1];
            }
          }
        }
      }
    }
  }

  // ----- One bucket over time -----

  predicate Ordered(times: seq<int>) {
    forall i, j :: 0 <= i < j < |times| ==> times[i] <= times[j]
  }

  /** How many of the calls made at `times` in [lo, hi) one bucket allows. */
  function Allowed(p: Policy, row: Option<Bucket>, times: seq<int>, lo: int, hi: int): nat
    decreases |times|
  {
    if times == [] then 0
    else
      var b := Hit(p, row, times[0]);
      (if lo <= times[0] < hi && Judge(b, times[0]).allowed then 1 else 0) + Allowed(p, Some(b), times[1..], lo, hi)
  }

  /** How many of the calls in the window that started at `start` the bucket allows. */
  function AllowedSince(p: Policy, row: Option<Bucket>, times: seq<int>, start: int): nat
    decreases |times|
  {
    if times == [] then 0
    else
      var b := Hit(p, row, times[0]);
      (if b.started == start && Judge(b, times[0]).allowed then 1 else 0) + AllowedSince(p, Some(b), times[1..], start)
  }

  /** A row written by the limiter: at least one attempt, and no window from the future. */
  predicate Sound(row: Option<Bucket>, times: seq<int>) {
    row.Some? ==> row.value.count >= 1 && forall i :: 0 <= i < |times| ==> row.value.started <= times[i]
  }

  lemma HitStaysSound(p: Policy, row: Option<Bucket>, times: seq<int>)
    requires p.Positive() && Ordered(times) && times != [] && Sound(row, times)
    ensures Ordered(times[1..]) && Sound(Some(Hit(p, row, times[0])), times[1..])
  {
    forall i | 0 <= i < |times[1..]| ensures times[0] <= times[1..][i] {
      assert times[1..][i] == times[i + 1];
    }
    forall i | 0 <= i < |times[1..]| && row.Some? ensures row.value.started <= times[1..][i] {
      assert times[1..][i] == times[i + 1];
    }
  }

  /** What a window has left. */
  function Left(p: Policy, b: Bucket): nat {
    if b.count < p.maxAttempts then p.maxAttempts - b.count else 0
  }

  function EpochBudget(p: Policy, row: Option<Bucket>, start: int): nat
    requires p.Positive()
  {
    if row.None? || row.value.started < start then p.maxAttempts
    else if row.value.started == start then Left(p, row.value)
    else 0
  }

  /** At most `maxAttempts` calls are allowed between one window start and the next. */
  lemma {:induction false} WindowEpochBound(p: Policy, row: Option<Bucket>, times: seq<int>, start: int)
    requires p.Positive() && Ordered(times) && Sound(row, times)
    ensures AllowedSince(p, row, times, start) <= EpochBudget(p, row, start) <= p.maxAttempts
    decreases |times|
  {
    if times != [] {
      HitStaysSound(p, row, times);
      WindowEpochBound(p, Some(Hit(p, row, times[0])), times[1..], start);
    }
  }

  lemma {:induction false} NothingLate(p: Policy, row: Option<Bucket>, times: seq<int>, lo: int, hi: int)
    requires forall i :: 0 <= i < |times| ==> times[i] >= hi
    ensures Allowed(p, row, times, lo, hi) == 0
    decreases |times|
  {
    if times != [] {
      NothingLate(p, Some(Hit(p, row, times[0])), times[1..], lo, hi);
    }
  }

  /** From `lo` on, at most one fresh window can open before `lo` plus the window length. */
  function Budget(p: Policy, b: Bucket, lo: int): nat
    requires p.Positive()
  {
    Left(p, b) + if b.started < lo then p.maxAttempts else 0
  }

  lemma {:induction false} AllowedFrom(p: Policy, row: Option<Bucket>, times: seq<int>, lo: int)
    requires p.Positive() && Ordered(times) && Sound(row, times)
    requires forall i :: 0 <= i < |times| ==> times[i] >= lo
    ensures Allowed(p, row, times, lo, lo + p.Window()) <= if row.Some? then Budget(p, row.value, lo) else p.maxAttempts
    decreases |times|
  {
    if times != [] {
      var b := Hit(p, row, times[0]);
      HitStaysSound(p, row, times);
      if times[0] >= lo + p.Window() {
        NothingLate(p, row, times, lo, lo + p.Window());
      } else {
        AllowedFrom(p, Some(b), times[1..], lo);
      }
    }
  }

  /**
   * The limiter's promise: in any half-open stretch of time as long as the window, wherever it begins,
   * a bucket allows at most twice `maxAttempts` less one calls.
   */
  lemma {:induction false} SlidingWindowBound(p: Policy, row: Option<Bucket>, times: seq<int>, lo: int)
    requires p.Positive() && Ordered(times) && Sound(row, times)
    ensures Allowed(p, row, times, lo, lo + 1000 * p.windowSeconds) <= 2 * p.maxAttempts - 1
    decreases |times|
  {
    if times != [] {
      HitStaysSound(p, row, times);
      if times[0] < lo {
        SlidingWindowBound(p, Some(Hit(p, row, times[0])), times[1..], lo);
      } else {
        AllowedFrom(p, row, times, lo);
      }
    }
  }

  function Repeat(t: int, n: nat): (r: seq<int>)
    ensures |r| == n && forall i :: 0 <= i < n ==> r[i] == t
  {
    if n == 0 then [] else [t] + Repeat(t, n - 1)
  }

  lemma {:induction false} BurstAllowed(p: Policy, b: Bucket, t: int, n: nat, later: seq<int>, lo: int, hi: int)
    requires p.Positive() && lo <= t < hi && b.started <= t && !Expired(p, b, t)
    requires b.blocked.None? && b.count + n <= p.maxAttempts
    ensures Allowed(p, Some(b), Repeat(t, n) + later, lo, hi) ==
      n + Allowed(p, Some(Bucket(b.started, b.count + n, None)), later, lo, hi)
    decreases n
  {
    if n == 0 {
      assert Repeat(t, 0) + later == later;
    } else {
      var times := Repeat(t, n) + later;
      assert times[1..] == Repeat(t, n - 1) + later;
      BurstAllowed(p, Bucket(b.started, b.count + 1, None), t, n - 1, later, lo, hi);
    }
  }

  /** The bound is met by one call, the rest of its window just before it ends, and a full next window. */
  function WorstCase(p: Policy): seq<int>
    requires p.Positive()
  {
    [0] + (Repeat(p.Window() - 1, p.maxAttempts - 1) + ([p.Window()] + Repeat(p.Window(), p.maxAttempts - 1)))
  }

  lemma WorstCaseOrdered(p: Policy)
    requires p.Positive()
    ensures Ordered(WorstCase(p))
  {
  }

  /** A call at the end of a full window opens the next one, which is then filled at once. */
  lemma SecondWindow(p: Policy, lo: int, hi: int)
    requires p.Positive() && lo <= p.Window() < hi
    ensures var n := p.maxAttempts - 1;
      Allowed(p, Some(Bucket(0, p.maxAttempts, None)), [p.Window()] + Repeat(p.Window(), n), lo, hi) == 1 + n
  {
    hide Allowed;
    var w, n := p.Window(), p.maxAttempts - 1;
    var second := [w] + Repeat(w, n);
    AllowedFirst(p, Some(Bucket(0, p.maxAttempts, None)), second, lo, hi);
    assert second[1..] == Repeat(w, n) + [] == Repeat(w, n);
    BurstAllowed(p, Bucket(w, 1, None), w, n, [], lo, hi);
    AllowedNone(p, Some(Bucket(w, 1 + n, None)), lo, hi);
  }

  lemma AllowedFirst(p: Policy, row: Option<Bucket>, times: seq<int>, lo: int, hi: int)
    requires times != []
    ensures var b := Hit(p, row, times[0]);
      Allowed(p, row, times, lo, hi) ==
        (if lo <= times[0] < hi && Judge(b, times[0]).allowed then 1 else 0) + Allowed(p, Some(b), times[1..], lo, hi)
  {
  }

  lemma AllowedNone(p: Policy, row: Option<Bucket>, lo: int, hi: int)
    ensures Allowed(p, row, [], lo, hi) == 0
  {
  }

  lemma SlidingWindowBoundIsTight(p: Policy)
    requires p.Positive()
    ensures Ordered(WorstCase(p))
    ensures Allowed(p, None, WorstCase(p), 1, 1 + 1000 * p.windowSeconds) == 2 * p.maxAttempts - 1
  {
    hide Allowed, Ordered;
    var w, n := p.Window(), p.maxAttempts - 1;
    var second := [w] + Repeat(w, n);
    WorstCaseOrdered(p);
    AllowedFirst(p, None, WorstCase(p), 1, 1 + w);
    assert WorstCase(p)[1..] == Repeat(w - 1, n) + second;
    BurstAllowed(p, Bucket(0, 1, None), w - 1, n, second, 1, 1 + w);
    SecondWindow(p, 1, 1 + w);
  }

  /** The row after a series of calls. */
  function After(p: Policy, b: Bucket, times: seq<int>): Bucket
    decreases |times|
  {
    if times == [] then b else After(p, Hit(p, Some(b), times[0]), times[1..])
  }

  /** Once a block is set, every call before its end is refused and leaves its end where it is. */
  lemma {:induction false} BlockHolds(p: Policy, b: Bucket, times: seq<int>, until: int, lo: int, hi: int)
    requires b.blocked == Some(until)
    requires forall i :: 0 <= i < |times| ==> times[i] < until
    ensures Allowed(p, Some(b), times, lo, hi) == 0
    ensures After(p, b, times).blocked == Some(until)
    decreases |times|
  {
    if times != [] {
      BlockHolds(p, Hit(p, Some(b), times[0]), times[1..], until, lo, hi);
    }
  }

  /**
   * A bucket recovers: with its block over, the next call is allowed exactly when so many seconds as the window is
   * long have passed since it began, or attempts are left.
   */
  lemma Recovers(p: Policy, b: Bucket, now: int)
    requires p.Positive() && (b.blocked.Some? ==> b.blocked.value <= now)
    ensures Judge(Hit(p, Some(b), now), now).allowed <==>
      now - b.started >= 1000 * p.windowSeconds || b.count < p.maxAttempts
  {
  }

  /**
   * One call too many in a window blocks for the stated number of seconds: it is told to wait just that long, and
   * every call before then is refused.
   */
  lemma ExcessBlocks(p: Policy, b: Bucket, now: int, times: seq<int>, lo: int, hi: int)
    requires p.Positive() && b.blocked.None? && b.count >= p.maxAttempts && now - b.started < 1000 * p.windowSeconds
    requires forall i :: 0 <= i < |times| ==> times[i] < now + 1000 * p.blockSeconds
    ensures var h := Hit(p, Some(b), now);
      && Judge(h, now) == Verdict(false, p.blockSeconds)
      && Allowed(p, Some(h), times, lo, hi) == 0
      && After(p, h, times).blocked == Some(now + 1000 * p.blockSeconds)
  {
    BlockHolds(p, Hit(p, Some(b), now), times, now + 1000 * p.blockSeconds, lo, hi);
  }

  // ----- The table of buckets -----

  /** A row is identified by action, audience and hashed key. */
  datatype RowId = RowId(action: string, audience: string, hash: string)

  type Rows = map<RowId, Bucket>

  function Find(rows: Rows, id: RowId): Option<Bucket> {
    if id in rows then Some(rows[id]) else None
  }

  function HitAll(p: Policy, rows: Rows, ids: seq<RowId>, now: int): (r: (Rows, seq<Verdict>))
    ensures |r.1| == |ids|
    decreases |ids|
  {
    if ids == [] then (rows, [])
    else
      var (before, verdicts) := HitAll(p, rows, ids[..|ids| - 1], now);
      var id := ids[|ids| - 1];
      var b := Hit(p, Find(before, id), now);
      (before[id := b], verdicts + [Judge(b, now)])
  }

  const FREE := Verdict(true, 0)

  function Consume(p: Policy, rows: Rows, ids: seq<RowId>, now: int): (Rows, Verdict) {
    var (after, verdicts) := HitAll(p, rows, ids, now);
    (after, Reduce(FREE, verdicts))
  }

  /** Each bucket of a call is hit once, as it was before the call; the others do not change. */
  lemma {:induction false} HitAllRow(p: Policy, rows: Rows, ids: seq<RowId>, now: int, id: RowId)
    requires Distinct(ids)
    ensures Find(HitAll(p, rows, ids, now).0, id) ==
      if id in ids then Some(Hit(p, Find(rows, id), now)) else Find(rows, id)
    decreases |ids|
  {
    if ids != [] {
      var front, last := ids[..|ids| - 1], ids[|ids| - 1];
      HitAllRow(p, rows, front, now, id);
      HitAllRow(p, rows, front, now, last);
      assert last !in front;
      assert ids == front + [last];
    }
  }

  lemma {:induction false} HitAllVerdict(p: Policy, rows: Rows, ids: seq<RowId>, now: int, i: nat)
    requires Distinct(ids) && i < |ids|
    ensures HitAll(p, rows, ids, now).1[i] == Judge(Hit(p, Find(rows, ids[i]), now), now)
    decreases |ids|
  {
    var front, last := ids[..|ids| - 1], ids[|ids| - 1];
    if i < |ids| - 1 {
      HitAllVerdict(p, rows, front, now, i);
    } else {
      HitAllRow(p, rows, front, now, last);
      assert last !in front;
    }
  }

  lemma HitAllEach(p: Policy, rows: Rows, ids: seq<RowId>, now: int)
    requires Distinct(ids)
    ensures var (after, verdicts) := HitAll(p, rows, ids, now);
      && (forall id :: Find(after, id) == if id in ids then Some(Hit(p, Find(rows, id), now)) else Find(rows, id))
      && (forall i :: 0 <= i < |ids| ==> verdicts[i] == Judge(Hit(p, Find(rows, ids[i]), now), now))
  {
    var (after, verdicts) := HitAll(p, rows, ids, now);
    forall id ensures Find(after, id) == if id in ids then Some(Hit(p, Find(rows, id), now)) else Find(rows, id) {
      HitAllRow(p, rows, ids, now, id);
    }
    forall i | 0 <= i < |ids| ensures verdicts[i] == Judge(Hit(p, Find(rows, ids[i]), now), now) {
      HitAllVerdict(p, rows, ids, now, i);
    }
  }

  /** A call is allowed exactly when each of its buckets allows it, and otherwise names the longest wait. */
  lemma CallAllowedIffAllAllow(p: Policy, rows: Rows, ids: seq<RowId>, now: int)
    requires p.Positive() && Distinct(ids)
    ensures var v := Consume(p, rows, ids, now).1;
      && (v.allowed <==> forall id :: id in ids ==> Judge(Hit(p, Find(rows, id), now), now).allowed)
      && (v.allowed <==> v.retryAfterSeconds == 0)
      && (forall id :: id in ids ==> v.retryAfterSeconds >= Judge(Hit(p, Find(rows, id), now), now).retryAfterSeconds)
      && (!v.allowed ==> exists id :: id in ids && v == Judge(Hit(p, Find(rows, id), now), now))
  {
    HitAllEach(p, rows, ids, now);
    var verdicts := HitAll(p, rows, ids, now).1;
    forall i | 0 <= i < |ids| ensures Coherent(verdicts[i]) {
      HitIsLive(p, Find(rows, ids[i]), now);
    }
    ReduceIsStrictest(FREE, verdicts);
    var v := Consume(p, rows, ids, now).1;
    if !v.allowed {
      var i :| 0 <= i < |verdicts| && verdicts[i] == v;
      assert ids[i] in ids;
    }
    if forall id :: id in ids ==> Judge(Hit(p, Find(rows, id), now), now).allowed {
      forall i | 0 <= i < |verdicts| ensures verdicts[i].allowed {
        assert ids[i] in ids;
      }
    }
    forall id | id in ids
      ensures v.retryAfterSeconds >= Judge(Hit(p, Find(rows, id), now), now).retryAfterSeconds
      ensures v.allowed ==> Judge(Hit(p, Find(rows, id), now), now).allowed
    {
      var i :| 0 <= i < |ids| && ids[i] == id;
      assert verdicts[i] == Judge(Hit(p, Find(rows, id), now), now);
    }
  }

  // ----- Whole runs of the service -----

  /** Each call brings its own policy; a successful login clears its buckets. */
  datatype Event =
    | Call(ids: seq<RowId>, now: int, policy: Policy)
    | Clear(ids: seq<RowId>, now: int)
  {
    /** A call whose policy is refused touches nothing. */
    predicate Hits(id: RowId) {
      Call? && policy.Positive() && id in ids
    }
  }

  function Serve(rows: Rows, e: Event): (Rows, bool) {
    match e
    case Call(ids, now, p) =>
      if p.Positive() then var (after, v) := Consume(p, rows, ids, now); (after, v.allowed) else (rows, false)
    case Clear(ids, _) => (rows - Members(ids), false)
  }

  function Members(ids: seq<RowId>): set<RowId> {
    set i | 0 <= i < |ids| :: ids[i]
  }

  /** How many of the calls that name bucket `id` in [lo, hi) the service allows. */
  function Granted(rows: Rows, events: seq<Event>, id: RowId, lo: int, hi: int): nat
    decreases |events|
  {
    if events == [] then 0
    else
      var e := events[0];
      var (after, allowed) := Serve(rows, e);
      (if id in e.ids && lo <= e.now < hi && allowed then 1 else 0) + Granted(after, events[1..], id, lo, hi)
  }

  /** When the bucket is hit. */
  function TimesOf(events: seq<Event>, id: RowId): seq<int>
    decreases |events|
  {
    if events == [] then []
    else (if events[0].Hits(id) then [events[0].now] else []) + TimesOf(events[1..], id)
  }

  predicate InOrder(events: seq<Event>) {
    forall i, j :: 0 <= i < j < |events| ==> events[i].now <= events[j].now
  }

  predicate EachDistinct(events: seq<Event>) {
    forall i :: 0 <= i < |events| ==> Distinct(events[i].ids)
  }

  /** The bucket is never cleared, and every call that names it brings the same policy. Others are free. */
  predicate OnePolicy(p: Policy, events: seq<Event>, id: RowId) {
    forall i :: 0 <= i < |events| && id in events[i].ids ==>
      events[i].Call? && (events[i].policy.Positive() ==> events[i].policy == p)
  }

  lemma {:induction false} TimesOfMembers(events: seq<Event>, id: RowId)
    ensures forall t :: t in TimesOf(events, id) ==> exists i :: 0 <= i < |events| && events[i].now == t
    decreases |events|
  {
    if events != [] {
      TimesOfMembers(events[1..], id);
      forall t | t in TimesOf(events, id) ensures exists i :: 0 <= i < |events| && events[i].now == t {
        if t in TimesOf(events[1..], id) {
          var i :| 0 <= i < |events[1..]| && events[1..][i].now == t;
          assert events[i + 1].now == t;
        } else {
          assert events[0].now == t;
        }
      }
    }
  }

  lemma {:induction false} TimesOfOrdered(events: seq<Event>, id: RowId)
    requires InOrder(events)
    ensures Ordered(TimesOf(events, id))
    decreases |events|
  {
    if events != [] {
      TimesOfOrdered(events[1..], id);
      TimesOfMembers(events[1..], id);
      var rest := TimesOf(events[1..], id);
      forall i | 0 <= i < |rest| ensures events[0].now <= rest[i] {
        assert rest[i] in rest;
        var k :| 0 <= k < |events[1..]| && events[1..][k].now == rest[i];
        assert events[k + 1].now == rest[i];
      }
    }
  }

  /** One event grants no more, and leaves the bucket as, the hit of that bucket alone. */
  lemma ServeBucket(p: Policy, rows: Rows, e: Event, id: RowId)
    requires Distinct(e.ids) && OnePolicy(p, [e], id)
    ensures Find(Serve(rows, e).0, id) == if e.Hits(id) then Some(Hit(p, Find(rows, id), e.now)) else Find(rows, id)
    ensures id in e.ids && Serve(rows, e).1 ==> e.Hits(id) && Judge(Hit(p, Find(rows, id), e.now), e.now).allowed
  {
    assert id in e.ids ==> [e][0].Call?;
    if e.Call? && e.policy.Positive() {
      HitAllEach(e.policy, rows, e.ids, e.now);
      CallAllowedIffAllAllow(e.policy, rows, e.ids, e.now);
      assert id in e.ids ==> [e][0].policy == p;
    }
  }

  /** The service grants no more than each of its buckets does on its own. */
  lemma {:induction false} GrantedAtMostAllowed(p: Policy, rows: Rows, events: seq<Event>, id: RowId, lo: int, hi: int)
    requires EachDistinct(events) && OnePolicy(p, events, id)
    ensures Granted(rows, events, id, lo, hi) <= Allowed(p, Find(rows, id), TimesOf(events, id), lo, hi)
    decreases |events|
  {
    if events != [] {
      var e := events[0];
      var after := Serve(rows, e).0;
      assert OnePolicy(p, [e], id) && OnePolicy(p, events[1..], id) && EachDistinct(events[1..]);
      ServeBucket(p, rows, e, id);
      GrantedAtMostAllowed(p, after, events[1..], id, lo, hi);
      if e.Hits(id) {
        assert TimesOf(events, id)[1..] == TimesOf(events[1..], id);
      } else {
        assert TimesOf(events, id) == TimesOf(events[1..], id);
      }
    }
  }

  /**
   * Brute force is bounded: whatever other buckets calls name beside it, under whatever policies and with whatever
   * clearing between, at most twice `maxAttempts` less one calls on a bucket are granted in any stretch as long
   * as the window.
   */
  lemma ServiceBound(p: Policy, events: seq<Event>, id: RowId, lo: int)
    requires p.Positive() && EachDistinct(events) && InOrder(events) && OnePolicy(p, events, id)
    ensures Granted(map[], events, id, lo, lo + 1000 * p.windowSeconds) <= 2 * p.maxAttempts - 1
  {
    TimesOfOrdered(events, id);
    SlidingWindowBound(p, None, TimesOf(events, id), lo);
    GrantedAtMostAllowed(p, map[], events, id, lo, lo + p.Window());
  }

  // ----- The service -----

  predicate Named(raw: seq<string>, key: string) {
    exists i :: 0 <= i < |raw| && Trim(raw[i]) == key
  }

  lemma NamedOneMore(front: seq<string>, last: string, key: string)
    ensures Named(front + [last], key) <==> key == Trim(last) || Named(front, key)
  {
    if key == Trim(last) {
      assert Trim((front + [last])[|front|]) == key;
    }
    if Named(front, key) {
      var i :| 0 <= i < |front| && Trim(front[i]) == key;
      assert Trim((front + [last])[i]) == key;
    }
  }

  /** Trimmed, non-empty and without repetition, in order of first appearance. */
  function Keys(raw: seq<string>): (keys: seq<string>)
    ensures Distinct(keys)
    decreases |raw|
  {
    if raw == [] then []
    else
      var keys := Keys(raw[..|raw| - 1]);
      var key := Trim(raw[|raw| - 1]);
      if key == "" || key in keys then keys else keys + [key]
  }

  lemma {:induction false} KeysAre(raw: seq<string>, key: string)
    ensures key in Keys(raw) <==> key != "" && Named(raw, key)
    decreases |raw|
  {
    if raw != [] {
      var front, last := raw[..|raw| - 1], raw[|raw| - 1];
      assert raw == front + [last];
      NamedOneMore(front, last, key);
      KeysAre(front, key);
    }
  }

  type Hasher = string -> string

  function BucketText(action: string, audience: string, key: string): string {
    action + ":" + audience + ":" + key
  }

  function IdOf(sha256: Hasher, action: string, audience: string, key: string): RowId {
    RowId(action, audience, sha256(BucketText(action, audience, key)))
  }

  function Ids(sha256: Hasher, action: string, audience: string, keys: seq<string>): seq<RowId> {
    seq(|keys|, i requires 0 <= i < |keys| => IdOf(sha256, action, audience, keys[i]))
  }

  ghost predicate CollisionFree(sha256: Hasher) {
    forall a, b :: sha256(a) == sha256(b) ==> a == b
  }

  lemma TextsDiffer(action: string, audience: string, a: string, b: string)
    requires a != b
    ensures BucketText(action, audience, a) != BucketText(action, audience, b)
  {
    var prefix := action + ":" + audience + ":";
    assert BucketText(action, audience, a)[|prefix|..] == a;
    assert BucketText(action, audience, b)[|prefix|..] == b;
  }

  /** Different keys of one call use different rows, so the bounds above apply to every call. */
  lemma IdsDistinct(sha256: Hasher, action: string, audience: string, keys: seq<string>)
    requires CollisionFree(sha256) && Distinct(keys)
    ensures Distinct(Ids(sha256, action, audience, keys))
  {
    forall i, j | 0 <= i < j < |keys|
      ensures IdOf(sha256, action, audience, keys[i]) != IdOf(sha256, action, audience, keys[j])
    {
      TextsDiffer(action, audience, keys[i], keys[j]);
    }
  }

  datatype Error = NotPositive(name: string)

  datatype Result = Ok(verdict: Verdict) | Err(error: Error)

  function Check(p: Policy): Option<Error> {
    if p.maxAttempts < 1 then Some(NotPositive("maxAttempts"))
    else if p.windowSeconds < 1 then Some(NotPositive("windowSeconds"))
    else if p.blockSeconds < 1 then Some(NotPositive("blockSeconds"))
    else None
  }

  /** A policy is accepted exactly if its three numbers are at least one; otherwise the first that is not is named. */
  lemma PolicyAcceptedIff(p: Policy)
    ensures Check(p).None? <==> p.maxAttempts >= 1 && p.windowSeconds >= 1 && p.blockSeconds >= 1
    ensures Check(p).None? <==> p.Positive()
    ensures Check(p).Some? ==>
      match Check(p).value.name
      case "maxAttempts" => p.maxAttempts < 1
      case "windowSeconds" => p.maxAttempts >= 1 && p.windowSeconds < 1
      case "blockSeconds" => p.maxAttempts >= 1 && p.windowSeconds >= 1 && p.blockSeconds < 1
      case _ => false
  {
  }

  class AuthRateLimiter {
    const sha256: Hasher
    var rows: Rows

    constructor (sha256: Hasher)
      ensures rows == map[] && this.sha256 == sha256
    {
      this.sha256 := sha256;
      rows := map[];
    }

    method BucketHashes(action: string, audience: string, bucketKeys: seq<string>) returns (ids: seq<RowId>)
      ensures ids == Ids(sha256, action, audience, Keys(bucketKeys))
    {
      var keys: seq<string> := [];
      for i := 0 to |bucketKeys|
        invariant keys == Keys(bucketKeys[..i])
      {
        assert bucketKeys[..i + 1][..i] == bucketKeys[..i];
        var key := Trim(bucketKeys[i]);
        if key != "" && key !in keys {
          keys := keys + [key];
        }
      }
      assert bucketKeys[..|bucketKeys|] == bucketKeys;
      ids := Ids(sha256, action, audience, keys);
    }

    method ConsumeAuthRateLimit(action: string, audience: string, bucketKeys: seq<string>, p: Policy, now: int)
      returns (r: Result)
      modifies `rows
      ensures match Check(p)
        case Some(e) => r == Err(e) && rows == old(rows)
        case None =>
          var ids := Ids(sha256, action, audience, Keys(bucketKeys));
          r.Ok? && (rows, r.verdict) == Consume(p, old(rows), ids, now)
    {
      if p.maxAttempts < 1 {
        return Err(NotPositive("maxAttempts"));
      }
      if p.windowSeconds < 1 {
        return Err(NotPositive("windowSeconds"));
      }
      if p.blockSeconds < 1 {
        return Err(NotPositive("blockSeconds"));
      }
      var ids := BucketHashes(action, audience, bucketKeys);
      if ids == [] {
        return Ok(FREE);
      }
      var results: seq<Verdict> := [];
      for i := 0 to |ids|
        invariant (rows, results) == HitAll(p, old(rows), ids[..i], now)
      {
        assert ids[..i + 1][..i] == ids[..i];
        var b := Hit(p, Find(rows, ids[i]), now);
        rows := rows[ids[i] := b];
        results := results + [Judge(b, now)];
      }
      assert ids[..|ids|] == ids;
      var current := FREE;
      for i := 0 to |results|
        invariant Reduce(current, results[i..]) == Reduce(FREE, results)
      {
        assert results[i..][1..] == results[i + 1..];
        if results[i].retryAfterSeconds > current.retryAfterSeconds {
          current := results[i];
        }
      }
      return Ok(current);
    }

    method ClearAuthRateLimit(action: string, audience: string, bucketKeys: seq<string>)
      modifies `rows
      ensures var ids := Ids(sha256, action, audience, Keys(bucketKeys));
        forall id :: Find(rows, id) == (if id in ids then None else Find(old(rows), id))
    {
      var ids := BucketHashes(action, audience, bucketKeys);
      rows := rows - Members(ids);
    }
  }
}
