/** The per-endpoint circuit breaker as three expiring Redis keys. */
module Breaker {
  import opened Rows
  import P = Protocol

  /** CB_FAIL_THRESHOLD and the three lifetimes, in one time unit. */
  datatype Config = Config(threshold: nat, window: nat, open: nat, probe: nat)

  /** The failure counter; INCR gives a new key no expiry until EXPIRE sets one. */
  datatype Counter = Counter(count: nat, expiresAt: Option<nat>)

  datatype Keys = Keys(fails: Option<Counter>, open: Option<nat>, probe: Option<nat>)

  predicate FailsLive(k: Keys, now: nat) {
    k.fails.Some? && (k.fails.value.expiresAt.Some? ==> now < k.fails.value.expiresAt.value)
  }

  predicate OpenLive(k: Keys, now: nat) {
    k.open.Some? && now < k.open.value
  }

  predicate ProbeLive(k: Keys, now: nat) {
    k.probe.Some? && now < k.probe.value
  }

  /** The counter, seen by GET, has reached the threshold. */
  predicate Tripped(c: Config, k: Keys, now: nat) {
    FailsLive(k, now) && k.fails.value.count >= c.threshold
  }

  // ----- single Redis commands -----

  function Incr(k: Keys, now: nat): Keys {
    if FailsLive(k, now)
    then k.(fails := Some(Counter(k.fails.value.count + 1, k.fails.value.expiresAt)))
    else k.(fails := Some(Counter(1, None)))
  }

  function Expire(c: Config, k: Keys, now: nat): Keys {
    if FailsLive(k, now) then k.(fails := Some(Counter(k.fails.value.count, Some(now + c.window)))) else k
  }

  function SetOpen(c: Config, k: Keys, now: nat): Keys {
    k.(open := Some(now + c.open))
  }

  function SetProbeNx(c: Config, k: Keys, now: nat): Keys {
    if ProbeLive(k, now) then k else k.(probe := Some(now + c.probe))
  }

  // ----- failures in sequence -----

  /** `recordFailure` alone on the keys. */
  function Recorded(c: Config, k: Keys, now: nat): Keys {
    var counted := Expire(c, Incr(k, now), now);
    if counted.fails.value.count >= c.threshold then SetOpen(c, counted, now) else counted
  }

  /** What `checkState` returns alone on the keys. */
  function VerdictOf(c: Config, k: Keys, now: nat): P.Verdict {
    if OpenLive(k, now) || (Tripped(c, k, now) && ProbeLive(k, now)) then P.Open
    else if Tripped(c, k, now) then P.Probe
    else P.Closed
  }

  /** The keys after failures at these times, from none. */
  function AfterFailures(c: Config, times: seq<nat>): Keys {
    if times == [] then Keys(None, None, None)
    else Recorded(c, AfterFailures(c, times[..|times| - 1]), times[|times| - 1])
  }

  /** Each failure comes before a window has passed since the one before. */
  ghost predicate InOneWindow(c: Config, times: seq<nat>) {
    forall i | 0 < i < |times| :: times[i - 1] <= times[i] < times[i - 1] + c.window
  }

  lemma {:induction false} FailuresCount(c: Config, times: seq<nat>)
    requires InOneWindow(c, times) && times != [] && c.window > 0
    ensures var k, n, last := AfterFailures(c, times), |times|, times[|times| - 1];
            && k.fails == Some(Counter(n, Some(last + c.window))) && k.probe == None
            && k.open == if n >= c.threshold then Some(last + c.open) else None
  {
    if |times| > 1 {
      FailuresCount(c, times[..|times| - 1]);
    } else {
      assert times[..0] == [];
    }
  }

  /** The breaker opens at the `threshold`-th failure and not before, stays open for `open`,
      then asks for a probe, and closes when a window has passed since the last failure. */
  lemma VerdictAfterFailures(c: Config, times: seq<nat>, t: nat)
    requires InOneWindow(c, times) && c.window > 0 && c.threshold > 0
    requires times != [] ==> times[|times| - 1] <= t
    ensures var n, v := |times|, VerdictOf(c, AfterFailures(c, times), t);
            && (v == P.Open <==> n >= c.threshold && t < times[n - 1] + c.open)
            && (v == P.Probe <==> n >= c.threshold && times[n - 1] + c.open <= t < times[n - 1] + c.window)
            && (v == P.Closed <==> n < c.threshold || (times[n - 1] + c.open <= t && times[n - 1] + c.window <= t))
  {
    if times != [] {
      FailuresCount(c, times);
    }
  }

  // ----- all interleavings, one command per step -----

  /** `rec` maps a worker inside recordFailure to the count its INCR returned and whether
      its EXPIRE is done; `chk` holds the workers inside checkState that saw no open key,
      `elect` those that then saw a tripped counter.  `counted` is the time of the last
      EXPIRE that found the counter. */
  datatype State = State(keys: Keys, now: nat, counted: nat, rec: map<nat, (nat, bool)>, chk: set<nat>, elect: set<nat>)

  datatype Step =
    | Tick(to: nat)
    | RecIncr(w: nat)
    | RecExpire(w: nat)
    | RecOpen(w: nat)
    | CheckOpen(w: nat)
    | CheckFails(w: nat)
    | Elect(w: nat)
    | ProbeOk
    | ProbeFailed
    | ProbeCleared
    | Crash(w: nat)

  function Apply(c: Config, s: State, step: Step): State {
    match step
    case Tick(to) => if to >= s.now then s.(now := to) else s
    case RecIncr(w) =>
      var k := Incr(s.keys, s.now);
      s.(keys := k, rec := s.rec[w := (k.fails.value.count, false)])
    case RecExpire(w) =>
      if w !in s.rec || s.rec[w].1 then s
      else s.(keys := Expire(c, s.keys, s.now), rec := s.rec[w := (s.rec[w].0, true)],
              counted := if FailsLive(s.keys, s.now) then s.now else s.counted)
    case RecOpen(w) =>
      if w !in s.rec || !s.rec[w].1 then s
      else s.(keys := if s.rec[w].0 >= c.threshold then SetOpen(c, s.keys, s.now) else s.keys, rec := s.rec - {w})
    case CheckOpen(w) => if OpenLive(s.keys, s.now) then s else s.(chk := s.chk + {w})
    case CheckFails(w) =>
      if w !in s.chk then s
      else if Tripped(c, s.keys, s.now) then s.(chk := s.chk - {w}, elect := s.elect + {w})
      else s.(chk := s.chk - {w})
    case Elect(w) =>
      if w !in s.elect then s else s.(keys := SetProbeNx(c, s.keys, s.now), elect := s.elect - {w})
    case ProbeOk => s.(keys := s.keys.(fails := None, probe := None))
    case ProbeFailed => s.(keys := SetOpen(c, s.keys, s.now))
    case ProbeCleared => s.(keys := s.keys.(probe := None))
    case Crash(w) => s.(rec := s.rec - {w}, chk := s.chk - {w}, elect := s.elect - {w})
  }

  /** What checkState returns, at the command that decides it. */
  function ResultOf(c: Config, s: State, step: Step): Option<P.Verdict> {
    match step
    case CheckOpen(w) => if OpenLive(s.keys, s.now) then Some(P.Open) else None
    case CheckFails(w) => if w in s.chk && !Tripped(c, s.keys, s.now) then Some(P.Closed) else None
    case Elect(w) =>
      if w !in s.elect then None else if ProbeLive(s.keys, s.now) then Some(P.Open) else Some(P.Probe)
    case _ => None
  }

  datatype Run = From(s: State) | Then(before: Run, step: Step)

  function After(c: Config, run: Run): State {
    match run
    case From(s) => s
    case Then(before, step) => Apply(c, After(c, before), step)
  }

  /** The counter's expiry is one window after the last counted failure. */
  ghost predicate WindowInv(c: Config, s: State) {
    s.keys.fails.Some? && s.keys.fails.value.expiresAt.Some? ==>
      s.keys.fails.value.expiresAt.value == s.counted + c.window
  }

  /** No probe succeeds, and no window passes since the last counted failure. */
  ghost predicate Sustained(c: Config, run: Run) {
    run.Then? ==>
      Sustained(c, run.before) && !run.step.ProbeOk? && After(c, run).now < After(c, run).counted + c.window
  }

  ghost predicate NeverClosed(c: Config, run: Run) {
    run.Then? ==> NeverClosed(c, run.before) && ResultOf(c, After(c, run.before), run.step) != Some(P.Closed)
  }

  function Origin(run: Run): State {
    match run
    case From(s) => s
    case Then(before, _) => Origin(before)
  }

  lemma StepStaysTripped(c: Config, s: State, step: Step)
    requires WindowInv(c, s) && Tripped(c, s.keys, s.now) && !step.ProbeOk?
    requires Apply(c, s, step).now < Apply(c, s, step).counted + c.window
    ensures WindowInv(c, Apply(c, s, step)) && Tripped(c, Apply(c, s, step).keys, Apply(c, s, step).now)
  {
  }

  /** From the moment the count reaches the threshold no checkState of any worker returns
      'closed' until a probe succeeds or a window passes without a counted failure. */
  lemma {:induction false} BreakerStaysTripped(c: Config, run: Run)
    requires WindowInv(c, Origin(run)) && Tripped(c, Origin(run).keys, Origin(run).now)
    requires Sustained(c, run)
    ensures NeverClosed(c, run)
    ensures WindowInv(c, After(c, run)) && Tripped(c, After(c, run).keys, After(c, run).now)
  {
    if run.Then? {
      BreakerStaysTripped(c, run.before);
      StepStaysTripped(c, After(c, run.before), run.step);
    }
  }

  /** The window invariant the theorem starts from holds on every run from empty keys. */
  lemma {:induction false} WindowReachable(c: Config, run: Run)
    requires Origin(run) == State(Keys(None, None, None), 0, 0, map[], {}, {})
    ensures WindowInv(c, After(c, run))
  {
    if run.Then? {
      WindowReachable(c, run.before);
    }
  }

  // ----- how long the breaker is open -----

  /** A failure whose INCR reached the threshold, or a failed probe, sets the open key. */
  predicate Opens(c: Config, s: State, step: Step) {
    step.ProbeFailed? || (step.RecOpen? && step.w in s.rec && s.rec[step.w].1 && s.rec[step.w].0 >= c.threshold)
  }

  /** `longer` continues `run`. */
  ghost predicate Extends(longer: Run, run: Run) {
    longer == run || (longer.Then? && Extends(longer.before, run))
  }

  /** Nothing after `run` sets the open key again. */
  ghost predicate NotReopened(c: Config, longer: Run, run: Run) {
    longer == run
    || (longer.Then? && NotReopened(c, longer.before, run) && !Opens(c, After(c, longer.before), longer.step))
  }

  lemma {:induction false} OpenKeyStays(c: Config, run: Run, step: Step, longer: Run)
    requires Opens(c, After(c, run), step) && Extends(longer, Then(run, step))
    ensures var t, s := After(c, run).now, After(c, longer);
            && t <= s.now && s.keys.open.Some? && t + c.open <= s.keys.open.value
            && (NotReopened(c, longer, Then(run, step)) ==> s.keys.open.value == t + c.open)
  {
    if longer != Then(run, step) {
      OpenKeyStays(c, run, step, longer.before);
    }
  }

  /** Opened at time t, in any interleaving: every checkState that begins before t + open
      returns 'open', and, unless the key is set again, none that begins later is stopped by
      that key. */
  lemma OpenForOpenSeconds(c: Config, run: Run, step: Step, longer: Run, w: nat)
    requires Opens(c, After(c, run), step) && Extends(longer, Then(run, step))
    ensures var t, s := After(c, run).now, After(c, longer);
            && (s.now < t + c.open ==> ResultOf(c, s, CheckOpen(w)) == Some(P.Open))
            && (NotReopened(c, longer, Then(run, step)) && t + c.open <= s.now ==>
                  ResultOf(c, s, CheckOpen(w)) == None && w in Apply(c, s, CheckOpen(w)).chk)
  {
    OpenKeyStays(c, run, step, longer);
  }

  /** No step but these two closes the probe slot early. */
  ghost predicate NotCleared(longer: Run, run: Run) {
    longer == run
    || (longer.Then? && NotCleared(longer.before, run) && !longer.step.ProbeOk? && !longer.step.ProbeCleared?)
  }

  lemma {:induction false} ProbeKeyStays(c: Config, run: Run, w: nat, longer: Run)
    requires ResultOf(c, After(c, run), Elect(w)) == Some(P.Probe) && Extends(longer, Then(run, Elect(w)))
    requires NotCleared(longer, Then(run, Elect(w))) && After(c, longer).now < After(c, run).now + c.probe
    ensures After(c, run).now <= After(c, longer).now
    ensures After(c, longer).keys.probe == Some(After(c, run).now + c.probe)
  {
    if longer != Then(run, Elect(w)) {
      ProbeKeyStays(c, run, w, longer.before);
    }
  }

  /** A probe won at time t keeps every other worker from probing until t + probe, unless its
      result comes in before, and no longer than that. */
  lemma ProbeForProbeSeconds(c: Config, run: Run, w: nat, longer: Run, v: nat)
    requires ResultOf(c, After(c, run), Elect(w)) == Some(P.Probe) && Extends(longer, Then(run, Elect(w)))
    requires NotCleared(longer, Then(run, Elect(w))) && After(c, longer).now < After(c, run).now + c.probe
    ensures ResultOf(c, After(c, longer), Elect(v)) != Some(P.Probe)
    ensures forall to: nat | to >= After(c, run).now + c.probe ::
              var s := Apply(c, After(c, longer), Tick(to));
              v in s.elect ==> ResultOf(c, s, Elect(v)) == Some(P.Probe)
  {
    ProbeKeyStays(c, run, w, longer);
  }

  /** A probe's result, good or bad, frees the slot: the next worker to ask gets to probe. */
  lemma ResultFreesProbe(c: Config, run: Run, step: Step, v: nat)
    requires step.ProbeOk? || step.ProbeCleared?
    ensures var s := After(c, Then(run, step));
            v in s.elect ==> ResultOf(c, s, Elect(v)) == Some(P.Probe)
  {
  }

  function IncrsSince(longer: Run, run: Run): nat {
    if longer == run || longer.From? then 0
    else IncrsSince(longer.before, run) + (if longer.step.RecIncr? then 1 else 0)
  }

  lemma {:induction false} ClearedCounter(c: Config, run: Run, longer: Run)
    requires Extends(longer, Then(run, ProbeOk))
    ensures var k := After(c, longer).keys;
            k.fails.Some? ==> k.fails.value.count <= IncrsSince(longer, Then(run, ProbeOk))
  {
    if longer != Then(run, ProbeOk) {
      ClearedCounter(c, run, longer.before);
    }
  }

  /** A successful probe zeroes the count: until `threshold` further failures are recorded,
      every checkState that gets past the open key returns 'closed'. */
  lemma SuccessfulProbeCloses(c: Config, run: Run, longer: Run, w: nat)
    requires Extends(longer, Then(run, ProbeOk)) && IncrsSince(longer, Then(run, ProbeOk)) < c.threshold
    ensures w in After(c, longer).chk ==> ResultOf(c, After(c, longer), CheckFails(w)) == Some(P.Closed)
  {
    ClearedCounter(c, run, longer);
  }

  // ----- the counter on runs -----

  function Incrs(run: Run): nat {
    match run
    case From(_) => 0
    case Then(before, step) => Incrs(before) + (if step.RecIncr? then 1 else 0)
  }

  /** No probe succeeds and the counter never expires. */
  ghost predicate Unbroken(c: Config, run: Run) {
    run.Then? ==>
      var s := After(c, run.before);
      && Unbroken(c, run.before) && !run.step.ProbeOk?
      && (s.keys.fails.Some? && s.keys.fails.value.expiresAt.Some? ==>
            After(c, run).now < s.keys.fails.value.expiresAt.value)
  }

  ghost predicate FromEmpty(run: Run) {
    Origin(run) == State(Keys(None, None, None), 0, 0, map[], {}, {})
  }

  /** On an unbroken run the counter is the number of failures recorded so far, in whatever
      order their commands interleave. */
  lemma {:induction false} CounterCounts(c: Config, run: Run)
    requires FromEmpty(run) && Unbroken(c, run) && c.window > 0
    ensures var s := After(c, run);
            && (Incrs(run) == 0 ==> s.keys.fails == None)
            && (Incrs(run) > 0 ==>
                  && s.keys.fails.Some? && s.keys.fails.value.count == Incrs(run)
                  && (s.keys.fails.value.expiresAt.Some? ==> s.now < s.keys.fails.value.expiresAt.value))
  {
    if run.Then? {
      CounterCounts(c, run.before);
    }
  }

  ghost predicate NoProbeFailed(run: Run) {
    run.Then? ==> NoProbeFailed(run.before) && !run.step.ProbeFailed?
  }

  /** No worker's count is ahead of the failures recorded. */
  ghost predicate CountsBounded(s: State, n: nat) {
    && (s.keys.fails.Some? ==> s.keys.fails.value.count <= n)
    && forall w | w in s.rec :: s.rec[w].0 <= n
  }

  /** On every run without a failed probe the breaker does not open before the threshold-th
      failure. */
  lemma {:induction false} OpensAtThreshold(c: Config, run: Run)
    requires FromEmpty(run) && NoProbeFailed(run)
    ensures CountsBounded(After(c, run), Incrs(run))
    ensures Incrs(run) < c.threshold ==> After(c, run).keys.open == None
  {
    if run.Then? {
      OpensAtThreshold(c, run.before);
    }
  }

  /** And on an unbroken run the failure that reaches it opens it. */
  lemma ThresholdFailureOpens(c: Config, run: Run, w: nat)
    requires FromEmpty(run) && Unbroken(c, run) && c.window > 0 && Incrs(run) + 1 >= c.threshold
    ensures var done := Then(Then(run, RecIncr(w)), RecExpire(w));
            Opens(c, After(c, done), RecOpen(w))
  {
    CounterCounts(c, run);
  }

  function Probes(c: Config, run: Run): nat {
    if run.From? then 0 else
      Probes(c, run.before) + (if ResultOf(c, After(c, run.before), run.step) == Some(P.Probe) then 1 else 0)
  }

  /** How often the probe key came into existence. */
  function ProbeLifetimes(c: Config, run: Run): nat {
    if run.From? then 0 else
      var s, s' := After(c, run.before), After(c, run);
      ProbeLifetimes(c, run.before)
      + (if !ProbeLive(s.keys, s.now) && ProbeLive(s'.keys, s'.now) then 1 else 0)
  }

  /** Each lifetime of the probe key begins with its one 'probe' result and has no other. */
  lemma {:induction false} OneProbePerLifetime(c: Config, run: Run)
    requires c.probe > 0
    ensures Probes(c, run) == ProbeLifetimes(c, run)
  {
    if run.Then? {
      OneProbePerLifetime(c, run.before);
    }
  }

  // ----- as code -----

  class CircuitBreaker {
    const cfg: Config
    var keys: Keys

    constructor (cfg: Config)
      ensures this.cfg == cfg && keys == Keys(None, None, None)
    {
      this.cfg := cfg;
      keys := Keys(None, None, None);
    }

    method RecordFailure(now: nat)
      modifies this
      ensures keys == Recorded(cfg, old(keys), now)
      ensures var n := if FailsLive(old(keys), now) then old(keys).fails.value.count + 1 else 1;
              && keys.fails == Some(Counter(n, Some(now + cfg.window))) && keys.probe == old(keys).probe
              && keys.open == if n >= cfg.threshold then Some(now + cfg.open) else old(keys).open
      ensures Tripped(cfg, keys, now) && cfg.window > 0 && cfg.open > 0 ==> OpenLive(keys, now)
    {
      keys := Incr(keys, now);
      var fails := keys.fails.value.count;
      keys := Expire(cfg, keys, now);
      if fails >= cfg.threshold {
        keys := SetOpen(cfg, keys, now);
      }
    }

    method CheckState(now: nat) returns (v: P.Verdict)
      modifies this
      ensures v == VerdictOf(cfg, old(keys), now)
      ensures v.Closed? <==> !OpenLive(old(keys), now) && !Tripped(cfg, old(keys), now)
      ensures v.Probe? <==> !OpenLive(old(keys), now) && Tripped(cfg, old(keys), now) && !ProbeLive(old(keys), now)
      ensures keys == if v.Probe? then SetProbeNx(cfg, old(keys), now) else old(keys)
      ensures v.Probe? ==> keys == old(keys).(probe := Some(now + cfg.probe))
    {
      if OpenLive(keys, now) {
        return P.Open;
      }
      if Tripped(cfg, keys, now) {
        var won := !ProbeLive(keys, now);
        keys := SetProbeNx(cfg, keys, now);
        return if won then P.Probe else P.Open;
      }
      return P.Closed;
    }

    /** A failed probe re-opens at once; a successful one clears the count. */
    method OnProbeResult(ok: bool, now: nat)
      modifies this
      ensures ok ==> keys == old(keys).(fails := None, probe := None)
      ensures !ok ==> keys == SetOpen(cfg, old(keys), now).(probe := None)
      ensures !ok ==> keys == old(keys).(open := Some(now + cfg.open), probe := None)
    {
      if ok {
        keys := keys.(fails := None, probe := None);
      } else {
        keys := SetOpen(cfg, keys, now);
        keys := keys.(probe := None);
      }
    }
  }
}
