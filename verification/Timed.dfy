/** Punctual workers keep the lease, so they deliver once.

    The protocol's lock may expire at any step.  Here each run carries the expiry of the
    lock's key and each worker's last mark: its acquire, its DELIVERING write, its last
    heartbeat tick or its answer.  If the key expires only when its TTL has run out, and no
    worker lets more time pass after a mark than its phase allows, every worker in its
    section holds the lock, whatever the interleaving and however long the calls take. */
module Timed {
  import opened Rows
  import opened Protocol
  import opened Once
  import opened Recovery
  import Lease

  /** The key's expiry and the workers' marks. */
  datatype Clock = Clock(expiry: nat, mark: map<nat, nat>)

  function NextClock(ttl: nat, s: State, step: Step, clock: Clock): Clock {
    if !step.Act? || step.w !in s.workers then clock
    else
      var w, k := step.w, s.workers[step.w];
      match step.a
      case Acquire(t) =>
        if k.pc.Started? && t !in s.issued && s.lock.None? then Clock(s.now + ttl, clock.mark[w := s.now]) else clock
      case StartWrite => if k.pc.Admitted? then clock.(mark := clock.mark[w := s.now]) else clock
      case Beat =>
        if !k.pc.Calling? then clock
        else Clock(if s.lock == Some(k.token) then s.now + ttl else clock.expiry, clock.mark[w := s.now])
      case Answer(_) => if k.pc.Calling? then clock.(mark := clock.mark[w := s.now]) else clock
      case _ => clock
  }

  function ClockOf(ttl: nat, c: Config, run: Run): Clock {
    match run
    case Commit => Clock(0, map[])
    case Then(before, step) => NextClock(ttl, After(c, before), step, ClockOf(ttl, c, before))
  }

  /** The worker relies on the lock. */
  predicate Guarded(k: Worker) {
    k.pc.Locked? || InSection(k)
  }

  /** The time a worker may let pass after its mark. */
  function Slack(b: Lease.Bounds, pc: Pc): nat {
    match pc
    case Calling => b.interval + b.delay
    case Answered => b.post
    case _ => b.pre
  }

  /** The time that may have passed between the last refresh and the mark. */
  function Before(b: Lease.Bounds, pc: Pc): nat {
    match pc
    case Calling => b.pre
    case Answered => b.pre + b.interval + b.delay
    case _ => 0
  }

  ghost predicate InTime(b: Lease.Bounds, s: State, clock: Clock, now: nat) {
    forall w | w in s.workers && Guarded(s.workers[w]) && w in clock.mark ::
      now <= clock.mark[w] + Slack(b, s.workers[w].pc)
  }

  /** The key is lost only when its TTL has run out, time passes only as far as every worker
      allows, and the DLQ handler writes only after a recorded failure. */
  ghost predicate Punctual(b: Lease.Bounds, c: Config, s: State, step: Step, clock: Clock) {
    && (step.Expire? && s.lock.Some? ==> clock.expiry <= s.now)
    && (step.Wipe? ==> s.lock.None?)
    && (step.Tick? && s.now <= step.to ==> InTime(b, s, clock, step.to))
    && (OpOf(c, s, step).Bury? ==> s.row.attempts != [] && !s.row.attempts[|s.row.attempts| - 1].outcome.Success?)
  }

  ghost predicate PunctualRun(b: Lease.Bounds, ttl: nat, c: Config, run: Run) {
    run.Then? ==>
      && PunctualRun(b, ttl, c, run.before)
      && Punctual(b, c, After(c, run.before), run.step, ClockOf(ttl, c, run.before))
  }

  /** A guarded worker's token is in the lock, refreshed recently enough. */
  ghost predicate Holds(b: Lease.Bounds, ttl: nat, s: State, clock: Clock, w: nat)
    requires w in s.workers
  {
    var k := s.workers[w];
    && s.lock == Some(k.token) && w in clock.mark
    && clock.mark[w] + ttl <= clock.expiry + Before(b, k.pc)
    && s.now <= clock.mark[w] + Slack(b, k.pc)
  }

  ghost predicate AllHold(b: Lease.Bounds, ttl: nat, s: State, clock: Clock) {
    forall w | w in s.workers && Guarded(s.workers[w]) :: Holds(b, ttl, s, clock, w)
  }

  predicate Fits(b: Lease.Bounds, ttl: nat) {
    b.pre + b.post + b.interval + b.delay < ttl
  }

  /** What an action does to the lock, the marks and the worker. */
  lemma OwnMoveHolds(b: Lease.Bounds, ttl: nat, c: Config, s: State, w: nat, a: Action, clock: Clock)
    requires w in s.workers && (Guarded(s.workers[w]) ==> Holds(b, ttl, s, clock, w))
    ensures var m, clock' := MoveOf(c, s, w, a), NextClock(ttl, s, Act(w, a), clock);
            m.next.Some? && Guarded(m.next.value) ==>
              && m.lock == Some(m.next.value.token) && w in clock'.mark
              && clock'.mark[w] + ttl <= clock'.expiry + Before(b, m.next.value.pc)
              && s.now <= clock'.mark[w] + Slack(b, m.next.value.pc)
  {
  }

  /** Its own action leaves a worker holding, if still guarded. */
  lemma OwnStepHolds(b: Lease.Bounds, ttl: nat, c: Config, s: State, w: nat, a: Action, clock: Clock)
    requires w in s.workers && (Guarded(s.workers[w]) ==> Holds(b, ttl, s, clock, w))
    ensures var s', clock' := Apply(c, s, Act(w, a)), NextClock(ttl, s, Act(w, a), clock);
            w in s'.workers && Guarded(s'.workers[w]) ==> Holds(b, ttl, s', clock', w)
  {
    OwnMoveHolds(b, ttl, c, s, w, a, clock);
  }

  /** While `w` holds the lock, another worker's action neither takes nor frees it. */
  lemma StrangerKeepsLock(ttl: nat, c: Config, s: State, v: nat, w: nat, a: Action, clock: Clock)
    requires v in s.workers && w in s.workers && v != w && TokensDistinct(s)
    requires HasToken(s.workers[w]) && s.lock == Some(s.workers[w].token)
    ensures var clock' := NextClock(ttl, s, Act(v, a), clock);
            && MoveOf(c, s, v, a).lock == s.lock && clock'.expiry == clock.expiry
            && (w in clock.mark ==> w in clock'.mark && clock'.mark[w] == clock.mark[w])
  {
  }

  lemma StrangerHolds(b: Lease.Bounds, ttl: nat, c: Config, s: State, v: nat, w: nat, a: Action, clock: Clock)
    requires w in s.workers && Guarded(s.workers[w]) && Holds(b, ttl, s, clock, w)
    requires TokensDistinct(s) && v != w && v in s.workers
    ensures var s', clock' := Apply(c, s, Act(v, a)), NextClock(ttl, s, Act(v, a), clock);
            w in s'.workers && s'.workers[w] == s.workers[w] && Holds(b, ttl, s', clock', w)
  {
    StrangerKeepsLock(ttl, c, s, v, w, a, clock);
  }

  /** Nor does the key expire under a punctual worker. */
  lemma EnvHolds(b: Lease.Bounds, ttl: nat, c: Config, s: State, w: nat, step: Step, clock: Clock)
    requires w in s.workers && Guarded(s.workers[w]) && Holds(b, ttl, s, clock, w) && Fits(b, ttl)
    requires Punctual(b, c, s, step, clock) && !step.Act?
    ensures var s' := Apply(c, s, step);
            w in s'.workers && s'.workers[w] == s.workers[w] && Holds(b, ttl, s', NextClock(ttl, s, step, clock), w)
  {
  }

  lemma StepKeepsHolding(b: Lease.Bounds, ttl: nat, c: Config, s: State, step: Step, clock: Clock)
    requires AllHold(b, ttl, s, clock) && Fits(b, ttl) && TokensDistinct(s) && Punctual(b, c, s, step, clock)
    ensures AllHold(b, ttl, Apply(c, s, step), NextClock(ttl, s, step, clock))
  {
    var s' := Apply(c, s, step);
    forall w | w in s'.workers && Guarded(s'.workers[w])
      ensures Holds(b, ttl, s', NextClock(ttl, s, step, clock), w)
    {
      WorkerOrigin(c, s, step, w);
      if step.Act? && step.w in s.workers {
        if step.w == w {
          OwnStepHolds(b, ttl, c, s, w, step.a, clock);
        } else {
          StrangerHolds(b, ttl, c, s, step.w, w, step.a, clock);
        }
      } else if !step.Act? {
        EnvHolds(b, ttl, c, s, w, step, clock);
      }
    }
  }

  /** On a punctual run every worker in its section holds the lock. */
  lemma {:induction false} PunctualRunsHold(b: Lease.Bounds, ttl: nat, c: Config, run: Run)
    requires PunctualRun(b, ttl, c, run) && Fits(b, ttl)
    ensures AllHold(b, ttl, After(c, run), ClockOf(ttl, c, run))
  {
    if run.Then? {
      PunctualRunsHold(b, ttl, c, run.before);
      TokensReachable(c, run.before);
      StepKeepsHolding(b, ttl, c, After(c, run.before), run.step, ClockOf(ttl, c, run.before));
    }
  }

  lemma HoldingIsLeased(b: Lease.Bounds, ttl: nat, c: Config, s: State, step: Step, clock: Clock)
    requires AllHold(b, ttl, s, clock) && Punctual(b, c, s, step, clock)
    ensures Leased(NoLapse, c, s, step)
  {
    if step.Act? && step.w in s.workers {
      MoveOp(c, s, step.w, step.a);
    }
  }

  lemma {:induction false} PunctualRunsAreLeased(b: Lease.Bounds, ttl: nat, c: Config, run: Run)
    requires PunctualRun(b, ttl, c, run) && Fits(b, ttl)
    ensures LeasedRun(NoLapse, c, run)
  {
    if run.Then? {
      PunctualRunsAreLeased(b, ttl, c, run.before);
      PunctualRunsHold(b, ttl, c, run.before);
      HoldingIsLeased(b, ttl, c, After(c, run.before), run.step, ClockOf(ttl, c, run.before));
    }
  }

  /** If time before the call, time after it, heartbeat interval and tick delay together stay
      below the TTL, every punctual run delivers at most once: any number of workers, calls
      of any length, crashes and re-added jobs included. */
  lemma PunctualRunsDeliverOnce(b: Lease.Bounds, ttl: nat, c: Config, run: Run)
    requires PunctualRun(b, ttl, c, run) && Fits(b, ttl)
    ensures OnceThroughout(c, run)
  {
    PunctualRunsAreLeased(b, ttl, c, run);
    LeasedRunsDeliverOnce(c, run);
  }

  // ----- numbers -----

  /** Every worker in its section carries the next number. */
  ghost predicate AllCurrent(s: State) {
    forall w | w in s.workers && InSection(s.workers[w]) :: s.workers[w].n == s.row.attemptCount + 1
  }

  /** Two workers cannot both hold the lock. */
  lemma AloneInSection(b: Lease.Bounds, ttl: nat, s: State, clock: Clock, v: nat, w: nat)
    requires AllHold(b, ttl, s, clock) && TokensDistinct(s) && v in s.workers && w in s.workers
    requires Guarded(s.workers[v]) && Guarded(s.workers[w])
    ensures v == w
  {
  }

  /** Only the record of a worker in its section moves the count, and the worker leaves it. */
  lemma CountMoves(c: Config, s: State, step: Step)
    ensures var s' := Apply(c, s, step);
            || s'.row.attemptCount == s.row.attemptCount
            || (step.Act? && step.w in s.workers && InSection(s.workers[step.w])
                && step.w in s'.workers && !InSection(s'.workers[step.w]))
  {
    if step.Act? && step.w in s.workers {
      MoveOp(c, s, step.w, step.a);
    }
  }

  lemma StepKeepsCurrent(b: Lease.Bounds, ttl: nat, c: Config, s: State, step: Step, clock: Clock)
    requires AllHold(b, ttl, s, clock) && TokensDistinct(s) && AllCurrent(s)
    ensures AllCurrent(Apply(c, s, step))
  {
    var s' := Apply(c, s, step);
    CountMoves(c, s, step);
    forall w | w in s'.workers && InSection(s'.workers[w])
      ensures s'.workers[w].n == s'.row.attemptCount + 1
    {
      WorkerOrigin(c, s, step, w);
      if step.Act? && step.w == w {
        MoveKeeps(c, s, w, step.a);
      } else if s'.row.attemptCount != s.row.attemptCount {
        AloneInSection(b, ttl, s, clock, step.w, w);
      }
    }
  }

  lemma {:induction false} PunctualRunsAreCurrent(b: Lease.Bounds, ttl: nat, c: Config, run: Run)
    requires PunctualRun(b, ttl, c, run) && Fits(b, ttl)
    ensures AllCurrent(After(c, run)) && NumbersCurrent(c, run)
  {
    if run.Then? {
      PunctualRunsAreCurrent(b, ttl, c, run.before);
      PunctualRunsHold(b, ttl, c, run.before);
      TokensReachable(c, run.before);
      var s := After(c, run.before);
      StepKeepsCurrent(b, ttl, c, s, run.step, ClockOf(ttl, c, run.before));
      if run.step.Act? && run.step.w in s.workers {
        MoveOp(c, s, run.step.w, run.step.a);
      }
    }
  }

  /** With the same timing, and no worker dying between its DELIVERING write and its record,
      every DELIVERING row has a worker bound to settle it (audit query I4). */
  lemma PunctualRunsSettle(b: Lease.Bounds, ttl: nat, c: Config, run: Run)
    requires PunctualRun(b, ttl, c, run) && Fits(b, ttl) && CallsComplete(c, run)
    ensures SettledThroughout(c, run)
  {
    PunctualRunsAreCurrent(b, ttl, c, run);
    SettledIffNumbersCurrent(c, run);
  }
}
