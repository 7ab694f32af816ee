/** The per-delivery Redis lock: a token with an expiry, kept alive by a heartbeat. */
module Lease {
  import opened Rows

  datatype Holder = Holder(token: nat, expiresAt: nat)

  /** The key's value; a key whose expiry has come no longer exists. */
  type Lock = Option<Holder>

  predicate Free(l: Lock, now: nat) {
    l.None? || l.value.expiresAt <= now
  }

  predicate HeldBy(l: Lock, t: nat, now: nat) {
    !Free(l, now) && l.value.token == t
  }

  /** SET NX PX. */
  function Acquired(l: Lock, t: nat, now: nat, ttl: nat): Lock {
    if Free(l, now) then Some(Holder(t, now + ttl)) else l
  }

  /** extend_lock.lua */
  function Extended(l: Lock, t: nat, now: nat, ttl: nat): Lock {
    if HeldBy(l, t, now) then Some(Holder(t, now + ttl)) else l
  }

  /** release_lock.lua */
  function Released(l: Lock, t: nat, now: nat): Lock {
    if HeldBy(l, t, now) then None else l
  }

  // ----- histories -----

  datatype LockOp = Acquire(t: nat) | Extend(t: nat) | Release(t: nat)
  datatype Event = Event(at: nat, op: LockOp)

  function Do(l: Lock, e: Event, ttl: nat): Lock {
    match e.op
    case Acquire(t) => Acquired(l, t, e.at, ttl)
    case Extend(t) => Extended(l, t, e.at, ttl)
    case Release(t) => Released(l, t, e.at)
  }

  /** The lock after the first `k` events. */
  function LockAt(h: seq<Event>, k: nat, ttl: nat): Lock
    requires k <= |h|
  {
    if k == 0 then None else Do(LockAt(h, k - 1, ttl), h[k - 1], ttl)
  }

  ghost predicate Ordered(h: seq<Event>) {
    forall i, j | 0 <= i < j < |h| :: h[i].at <= h[j].at
  }

  /** Random tokens: no two acquires draw the same one. */
  ghost predicate DistinctTokens(h: seq<Event>) {
    forall i, j | 0 <= i < j < |h| && h[i].op.Acquire? && h[j].op.Acquire? :: h[i].op.t != h[j].op.t
  }

  /** A point in a history: between two events, at a time between theirs. */
  ghost predicate IsPoint(h: seq<Event>, k: nat, now: nat) {
    && k <= |h|
    && (forall i | 0 <= i < k :: h[i].at <= now)
    && (forall i | k <= i < |h| :: now <= h[i].at)
  }

  ghost predicate Holds(h: seq<Event>, k: nat, now: nat, t: nat, ttl: nat)
    requires k <= |h|
  {
    HeldBy(LockAt(h, k, ttl), t, now)
  }

  /** extend and release by anyone but the holder change nothing. */
  lemma StrangersChangeNothing(l: Lock, t: nat, now: nat, ttl: nat)
    requires !HeldBy(l, t, now)
    ensures Do(l, Event(now, Extend(t)), ttl) == l && Do(l, Event(now, Release(t)), ttl) == l
  {
  }

  /** A stored token was acquired. */
  lemma {:induction false} HeldWasAcquired(h: seq<Event>, k: nat, ttl: nat)
    requires k <= |h| && LockAt(h, k, ttl).Some?
    ensures exists i | 0 <= i < k :: h[i].op == Acquire(LockAt(h, k, ttl).value.token)
  {
    if LockAt(h, k - 1, ttl).Some? {
      HeldWasAcquired(h, k - 1, ttl);
    }
    if h[k - 1].op.Acquire? && LockAt(h, k, ttl).value.token == h[k - 1].op.t {
      assert h[k - 1].op == Acquire(LockAt(h, k, ttl).value.token);
    }
  }

  /** A token once acquired and not held now is never held again. */
  lemma {:induction false} LostForever(h: seq<Event>, a: nat, i: nat, x: nat, k: nat, y: nat, t: nat, ttl: nat)
    requires Ordered(h) && DistinctTokens(h) && IsPoint(h, i, x) && IsPoint(h, k, y) && i <= k && x <= y
    requires a < i && h[a].op == Acquire(t)
    requires !Holds(h, i, x, t, ttl)
    ensures !Holds(h, k, y, t, ttl)
    decreases k
  {
    if i < k {
      var e := h[k - 1];
      LostForever(h, a, i, x, k - 1, e.at, t, ttl);
      assert e.op != Acquire(t);
    }
  }

  /** What a token holds is one interval, so no other token holds inside it. */
  lemma HoldsAreDisjointIntervals(h: seq<Event>, i: nat, x: nat, j: nat, y: nat, k: nat, z: nat,
                                  t: nat, u: nat, ttl: nat)
    requires Ordered(h) && DistinctTokens(h)
    requires IsPoint(h, i, x) && IsPoint(h, j, y) && IsPoint(h, k, z) && i <= j <= k && x <= y <= z
    requires Holds(h, i, x, t, ttl) && Holds(h, k, z, t, ttl) && t != u
    ensures Holds(h, j, y, t, ttl) && !Holds(h, j, y, u, ttl)
  {
    HeldWasAcquired(h, i, ttl);
    var a :| 0 <= a < i && h[a].op == Acquire(t);
    if !Holds(h, j, y, t, ttl) {
      LostForever(h, a, j, y, k, z, t, ttl);
    }
  }

  /** A stored expiry is one TTL after an acquire or extension by the stored token. */
  lemma {:induction false} ExpiryIsRefresh(h: seq<Event>, k: nat, ttl: nat) returns (r: nat)
    requires k <= |h| && LockAt(h, k, ttl).Some?
    ensures var l := LockAt(h, k, ttl).value;
            r < k && (h[r].op == Acquire(l.token) || h[r].op == Extend(l.token)) && l.expiresAt == h[r].at + ttl
  {
    if LockAt(h, k, ttl) == LockAt(h, k - 1, ttl) {
      r := ExpiryIsRefresh(h, k - 1, ttl);
    } else {
      r := k - 1;
    }
  }

  /** A holder that dies blocks nobody for longer than a TTL: a token not acquired or extended
      within the last TTL is not held. */
  lemma HeldOnlyForTtl(h: seq<Event>, k: nat, now: nat, t: nat, ttl: nat)
    requires k <= |h|
    requires forall r | 0 <= r < k && (h[r].op == Acquire(t) || h[r].op == Extend(t)) :: h[r].at + ttl <= now
    ensures !Holds(h, k, now, t, ttl)
  {
    if LockAt(h, k, ttl).Some? {
      var r := ExpiryIsRefresh(h, k, ttl);
    }
  }

  // ----- the heartbeat -----

  /** The acquire at `a` and the extensions after it refresh the expiry. */
  ghost predicate Refreshes(h: seq<Event>, a: nat, r: nat, t: nat) {
    a <= r < |h| && (r == a || h[r].op == Extend(t))
  }

  /** At time `x`, before event `j`, the token was refreshed less than a TTL ago. */
  ghost predicate RefreshedAt(h: seq<Event>, a: nat, j: nat, x: nat, t: nat, ttl: nat) {
    exists r | 0 <= r < j :: Refreshes(h, a, r, t) && x < h[r].at + ttl
  }

  /** Event `j` neither releases the token nor comes a full TTL after its last refresh. */
  ghost predicate SafeAt(h: seq<Event>, a: nat, j: nat, t: nat, ttl: nat)
    requires j < |h|
  {
    h[j].op != Release(t) && RefreshedAt(h, a, j, h[j].at, t, ttl)
  }

  /** The token is stored and its expiry covers every refresh so far. */
  ghost predicate Covers(l: Lock, h: seq<Event>, a: nat, k: nat, t: nat, ttl: nat) {
    && l.Some? && l.value.token == t
    && forall r | 0 <= r < k && Refreshes(h, a, r, t) :: h[r].at + ttl <= l.value.expiresAt
  }

  lemma CoversFirst(h: seq<Event>, a: nat, t: nat, ttl: nat)
    requires a < |h| && h[a].op == Acquire(t) && Free(LockAt(h, a, ttl), h[a].at)
    ensures Covers(LockAt(h, a + 1, ttl), h, a, a + 1, t, ttl)
  {
  }

  lemma CoversNext(h: seq<Event>, a: nat, k: nat, t: nat, ttl: nat)
    requires Ordered(h) && a < k < |h| && Covers(LockAt(h, k, ttl), h, a, k, t, ttl)
    requires SafeAt(h, a, k, t, ttl)
    ensures Covers(LockAt(h, k + 1, ttl), h, a, k + 1, t, ttl)
  {
    assert HeldBy(LockAt(h, k, ttl), t, h[k].at);
  }

  /** Acquired at `a`, never released, and never a full TTL without a refresh: the token is
      in the lock throughout. */
  lemma {:induction false} KeptWhileRefreshed(h: seq<Event>, a: nat, k: nat, t: nat, ttl: nat)
    requires Ordered(h) && a < k <= |h|
    requires h[a].op == Acquire(t) && Free(LockAt(h, a, ttl), h[a].at)
    requires forall j | a < j < k :: SafeAt(h, a, j, t, ttl)
    ensures Covers(LockAt(h, k, ttl), h, a, k, t, ttl)
    decreases k
  {
    if a + 1 == k {
      CoversFirst(h, a, t, ttl);
    } else {
      KeptWhileRefreshed(h, a, k - 1, t, ttl);
      assert SafeAt(h, a, k - 1, t, ttl);
      CoversNext(h, a, k - 1, t, ttl);
    }
  }

  /** A worker's timing after it got the lock: HTTP from `start` to `stop`, the record at
      `done`, and the moments the extensions are executed. */
  datatype Plan = Plan(start: nat, stop: nat, done: nat, ticks: seq<nat>)

  /** LOCK_HEARTBEAT_INTERVAL_MS and bounds on a tick's delay and on the time before and
      after the call. */
  datatype Bounds = Bounds(interval: nat, delay: nat, pre: nat, post: nat)

  /** The m-th tick is scheduled m intervals after the start and executed a little late. */
  ghost predicate Follows(p: Plan, got: nat, b: Bounds) {
    && got <= p.start <= got + b.pre && p.start <= p.stop <= p.done <= p.stop + b.post
    && (forall m | 0 <= m < |p.ticks| ::
          p.start + (m + 1) * b.interval <= p.ticks[m] <= p.start + (m + 1) * b.interval + b.delay)
    && p.stop < p.start + (|p.ticks| + 1) * b.interval
  }

  /** By induction over the ticks: any moment up to the record is within a TTL of the
      acquire (-1) or of an earlier tick. */
  lemma {:induction false} NeverAFullTtl(p: Plan, got: nat, b: Bounds, ttl: nat, x: nat, m: nat) returns (best: int)
    requires Follows(p, got, b) && b.pre + b.post + b.interval + b.delay < ttl
    requires got <= x <= p.done && m <= |p.ticks|
    requires m < |p.ticks| ==> x <= p.ticks[m]
    ensures -1 <= best < m
    ensures best == -1 ==> x < got + ttl
    ensures best >= 0 ==> p.ticks[best] < x < p.ticks[best] + ttl
    decreases m
  {
    if m == 0 {
      best := -1;
    } else if p.ticks[m - 1] < x {
      best := m - 1;
      assert (m + 1) * b.interval == m * b.interval + b.interval;
    } else {
      best := NeverAFullTtl(p, got, b, ttl, x, m - 1);
    }
  }

  /** The history holds the plan's extensions, at the indices `at`. */
  ghost predicate Executes(h: seq<Event>, a: nat, t: nat, p: Plan, at: seq<nat>) {
    && |at| == |p.ticks|
    && forall m | 0 <= m < |p.ticks| :: a < at[m] < |h| && h[at[m]] == Event(p.ticks[m], Extend(t))
  }

  lemma RefreshedInTime(h: seq<Event>, a: nat, j: nat, x: nat, t: nat, ttl: nat, p: Plan, at: seq<nat>, b: Bounds)
    requires Ordered(h) && a < j && IsPoint(h, j, x) && x <= p.done
    requires Follows(p, h[a].at, b) && Executes(h, a, t, p, at) && b.pre + b.post + b.interval + b.delay < ttl
    ensures RefreshedAt(h, a, j, x, t, ttl)
  {
    var best := NeverAFullTtl(p, h[a].at, b, ttl, x, |p.ticks|);
    var r := if best >= 0 then at[best] else a;
    assert Refreshes(h, a, r, t) && x < h[r].at + ttl && r < j;
  }

  /** The lease survives an HTTP call of any length: if the time before and after the call,
      the interval and the tick delay together stay below the TTL, the token is in the lock
      at every moment from acquire to record, whatever others try meanwhile. */
  lemma LeaseKept(h: seq<Event>, a: nat, k: nat, now: nat, t: nat, ttl: nat, p: Plan, at: seq<nat>, b: Bounds)
    requires Ordered(h) && a < k && IsPoint(h, k, now) && h[a].at <= now <= p.done
    requires h[a].op == Acquire(t) && Free(LockAt(h, a, ttl), h[a].at)
    requires forall j | a < j < k :: h[j].op != Release(t)
    requires Follows(p, h[a].at, b) && Executes(h, a, t, p, at) && b.pre + b.post + b.interval + b.delay < ttl
    ensures Holds(h, k, now, t, ttl)
  {
    forall j | a < j < k
      ensures SafeAt(h, a, j, t, ttl)
    {
      RefreshedInTime(h, a, j, h[j].at, t, ttl, p, at, b);
    }
    KeptWhileRefreshed(h, a, k, t, ttl);
    RefreshedInTime(h, a, k, now, t, ttl, p, at, b);
  }

  // ----- the heartbeat among other workers -----

  function DoAll(l: Lock, h: seq<Event>, ttl: nat): Lock {
    if h == [] then l else Do(DoAll(l, h[..|h| - 1], ttl), h[|h| - 1], ttl)
  }

  /** One tick, and what others did to the lock since the last one. */
  datatype Beat = Beat(others: seq<Event>, at: nat)

  /** The lock after these ticks. */
  function Beaten(l: Lock, t: nat, beats: seq<Beat>, ttl: nat): Lock {
    if beats == [] then l
    else
      var b := beats[|beats| - 1];
      Extended(DoAll(Beaten(l, t, beats[..|beats| - 1], ttl), b.others, ttl), t, b.at, ttl)
  }

  /** Tick `m` finds the token missing. */
  ghost predicate MissedAt(l: Lock, t: nat, beats: seq<Beat>, m: nat, ttl: nat)
    requires m < |beats|
  {
    !HeldBy(DoAll(Beaten(l, t, beats[..m], ttl), beats[m].others, ttl), t, beats[m].at)
  }

  ghost predicate LostDuring(l: Lock, t: nat, beats: seq<Beat>, ttl: nat) {
    exists m | 0 <= m < |beats| :: MissedAt(l, t, beats, m, ttl)
  }

  /** Nobody else touches the lock, and time does not run backwards. */
  ghost predicate Alone(beats: seq<Beat>) {
    && (forall m | 0 <= m < |beats| :: beats[m].others == [])
    && (forall i, m | 0 <= i < m < |beats| :: beats[i].at <= beats[m].at)
  }

  /** Tick `m` comes before the TTL has run out. */
  ghost predicate InTime(l: Lock, t: nat, beats: seq<Beat>, m: nat, ttl: nat)
    requires m < |beats|
  {
    if m == 0 then HeldBy(l, t, beats[0].at) else beats[m].at < beats[m - 1].at + ttl
  }

  lemma {:induction false} AloneKeeps(l: Lock, t: nat, beats: seq<Beat>, n: nat, ttl: nat)
    requires Alone(beats) && 0 < n <= |beats| && forall m | 0 <= m < n :: InTime(l, t, beats, m, ttl)
    ensures Beaten(l, t, beats[..n], ttl) == Some(Holder(t, beats[n - 1].at + ttl))
    ensures forall m | 0 <= m < n :: !MissedAt(l, t, beats, m, ttl)
  {
    assert beats[..n][..n - 1] == beats[..n - 1];
    assert InTime(l, t, beats, n - 1, ttl);
    if n > 1 {
      AloneKeeps(l, t, beats, n - 1, ttl);
    }
  }

  /** Alone on the lock, the heartbeat loses it exactly when the token is missing at the
      first tick or a gap between ticks reaches the TTL. */
  lemma AloneLostIff(l: Lock, t: nat, beats: seq<Beat>, ttl: nat)
    requires Alone(beats)
    ensures LostDuring(l, t, beats, ttl) <==> exists m | 0 <= m < |beats| :: !InTime(l, t, beats, m, ttl)
  {
    if forall m | 0 <= m < |beats| :: InTime(l, t, beats, m, ttl) {
      if beats != [] {
        AloneKeeps(l, t, beats, |beats|, ttl);
      }
    } else {
      var m := FirstLate(l, t, beats, ttl);
      if m > 0 {
        AloneKeeps(l, t, beats, m, ttl);
      }
      assert MissedAt(l, t, beats, m, ttl);
    }
  }

  lemma FirstLate(l: Lock, t: nat, beats: seq<Beat>, ttl: nat) returns (m: nat)
    requires exists i | 0 <= i < |beats| :: !InTime(l, t, beats, i, ttl)
    ensures m < |beats| && !InTime(l, t, beats, m, ttl) && forall i | 0 <= i < m :: InTime(l, t, beats, i, ttl)
  {
    m := 0;
    while InTime(l, t, beats, m, ttl)
      invariant m < |beats| && forall i | 0 <= i < m :: InTime(l, t, beats, i, ttl)
      decreases |beats| - m
    {
      m := m + 1;
    }
  }

  // ----- as code -----

  class RedisLock {
    var holder: Lock

    constructor ()
      ensures holder == None
    {
      holder := None;
    }

    method Acquire(t: nat, now: nat, ttl: nat) returns (acquired: bool)
      modifies this
      ensures acquired == Free(old(holder), now)
      ensures holder == Do(old(holder), Event(now, LockOp.Acquire(t)), ttl)
      ensures holder == if acquired then Some(Holder(t, now + ttl)) else old(holder)
    {
      acquired := Free(holder, now);
      if acquired {
        holder := Some(Holder(t, now + ttl));
      }
    }

    /** False when the token is not in the lock any more. */
    method Extend(t: nat, now: nat, ttl: nat) returns (held: bool)
      modifies this
      ensures held == HeldBy(old(holder), t, now)
      ensures holder == Do(old(holder), Event(now, LockOp.Extend(t)), ttl)
      ensures holder == if held then Some(Holder(t, now + ttl)) else old(holder)
    {
      held := HeldBy(holder, t, now);
      if held {
        holder := Some(Holder(t, now + ttl));
      }
    }

    method Release(t: nat, now: nat) returns (held: bool)
      modifies this
      ensures held == HeldBy(old(holder), t, now)
      ensures holder == Do(old(holder), Event(now, LockOp.Release(t)), 0)
      ensures holder == if held then None else old(holder)
    {
      held := HeldBy(holder, t, now);
      if held {
        holder := None;
      }
    }

    /** `withLockHeartbeat`: commands of others are executed before each tick.  The flag
        flips, and the call is aborted, at the first tick that finds the token missing. */
    method Heartbeat(t: nat, beats: seq<Beat>, ttl: nat) returns (lockLost: bool, executed: nat)
      modifies this
      ensures executed <= |beats| && holder == Beaten(old(holder), t, beats[..executed], ttl)
      ensures lockLost <==> LostDuring(old(holder), t, beats, ttl)
      ensures lockLost ==> executed > 0 && MissedAt(old(holder), t, beats, executed - 1, ttl)
      ensures forall m | 0 <= m < (if lockLost then executed - 1 else |beats|) ::
                !MissedAt(old(holder), t, beats, m, ttl)
      ensures !lockLost ==> executed == |beats|
    {
      lockLost, executed := false, 0;
      while executed < |beats|
        invariant executed <= |beats| && holder == Beaten(old(holder), t, beats[..executed], ttl)
        invariant forall m | 0 <= m < executed :: !MissedAt(old(holder), t, beats, m, ttl)
      {
        var beat := beats[executed];
        assert beats[..executed + 1][..executed] == beats[..executed];
        holder := DoAll(holder, beat.others, ttl);
        var held := Extend(t, beat.at, ttl);
        executed := executed + 1;
        if !held {
          lockLost := true;
          assert MissedAt(old(holder), t, beats, executed - 1, ttl);
          return;
        }
      }
    }
  }
}
