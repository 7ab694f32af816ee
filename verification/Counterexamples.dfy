/** Runs that break a promise when one rule is dropped.

    Each run keeps every rule of `Once.Leased` or `Recovery.Recoverable` but the one it is
    about, and the API enqueues the delivery once: after a Redis wipe it is a sweep that
    adds the job again, when the row is due, or the API's add comes late.  A run is
    assembled from segments; a segment lemma says what one segment does to the state, so
    that a whole run is checked a few steps at a time. */
module Counterexamples {
  import opened Rows
  import opened Protocol
  import opened Fencing
  import opened Once
  import opened Recovery
  import opened Steps

  // ----- the rules along a segment -----

  /** How often the API's enqueue step adds the job. */
  function Enqueues(run: Run): nat {
    match run
    case Commit => 0
    case Then(before, step) => Enqueues(before) + (if step.EnqueueAdd? then 1 else 0)
  }

  /** Whatever rules `run` obeys, up to the lapse and the fault, `more` obeys, and the API
      enqueues nothing meanwhile. */
  ghost predicate Keeps(l: Lapse, f: Fault, c: Config, run: Run, more: Run) {
    && Enqueues(more) == Enqueues(run)
    && (LeasedRun(l, c, run) ==> LeasedRun(l, c, more))
    && (RecoverableRun(f, c, run) ==> RecoverableRun(f, c, more))
  }

  /** Steps that no rule speaks about. */
  predicate Plain(step: Step) {
    match step
    case Act(_, a) =>
      a.Acquire? || a.Look? || a.Check? || a.Take? || a.Answer? || a.Unlock? || a == Report(false) || a.HandlerRead?
    case _ => step.Wipe? || step.Tick? || step.Sweep? || step.Pickup?
  }

  ghost predicate PlainSince(more: Run, run: Run) {
    more == run || (more.Then? && Plain(more.step) && PlainSince(more.before, run))
  }

  lemma PlainOp(c: Config, s: State, step: Step)
    requires Plain(step)
    ensures OpOf(c, s, step) == Noop || OpOf(c, s, step) == Flag
  {
  }

  lemma PlainStep(l: Lapse, f: Fault, c: Config, run: Run, step: Step)
    requires Plain(step)
    ensures Keeps(l, f, c, run, Then(run, step))
  {
    PlainOp(c, After(c, run), step);
  }

  lemma {:induction false} PlainKeeps(l: Lapse, f: Fault, c: Config, run: Run, more: Run)
    requires PlainSince(more, run)
    ensures Keeps(l, f, c, run, more)
  {
    if more != run {
      PlainKeeps(l, f, c, run, more.before);
      PlainStep(l, f, c, more.before, more.step);
    }
  }

  /** A record of a failure, or of a SUCCESS under the lease, on a non-terminal row. */
  lemma RecordLeased(l: Lapse, c: Config, run: Run, s: State, w: nat)
    requires s == After(c, run) && LeasedRun(l, c, run) && w in s.workers
    requires At(s, w, Tripped) || s.lock == Some(s.workers[w].token) || l.AtRecord? || s.workers[w].outcome != Success
    ensures LeasedRun(l, c, Then(run, Act(w, RecordWrite(0))))
  {
    MoveOp(c, s, w, RecordWrite(0));
  }

  lemma RecordRecovers(f: Fault, c: Config, run: Run, s: State, w: nat)
    requires s == After(c, run) && RecoverableRun(f, c, run) && w in s.workers && !Terminal(s.row.status)
    ensures RecoverableRun(f, c, Then(run, Act(w, RecordWrite(0))))
  {
    MoveOp(c, s, w, RecordWrite(0));
  }

  lemma RecordKeeps(l: Lapse, f: Fault, c: Config, run: Run, s: State, w: nat)
    requires s == After(c, run) && w in s.workers && !Terminal(s.row.status)
    requires At(s, w, Tripped) || s.lock == Some(s.workers[w].token) || l.AtRecord? || s.workers[w].outcome != Success
    ensures Keeps(l, f, c, run, Then(run, Act(w, RecordWrite(0))))
  {
    if LeasedRun(l, c, run) {
      RecordLeased(l, c, run, s, w);
    }
    if RecoverableRun(f, c, run) {
      RecordRecovers(f, c, run, s, w);
    }
  }

  /** A DELIVERING write under the lease. */
  lemma StartKeepsLease(l: Lapse, c: Config, run: Run, s: State, w: nat)
    requires s == After(c, run) && LeasedRun(l, c, run) && w in s.workers
    requires s.lock == Some(s.workers[w].token) || l.AtStart?
    ensures LeasedRun(l, c, Then(run, Act(w, StartWrite)))
  {
    MoveOp(c, s, w, StartWrite);
  }

  lemma StartKeepsRecoverable(f: Fault, c: Config, run: Run, s: State, w: nat)
    requires s == After(c, run) && RecoverableRun(f, c, run) && w in s.workers
    requires !Terminal(s.row.status) || f.OverTerminal?
    requires s.workers[w].n == s.row.attemptCount + 1 || f.StaleNumber?
    ensures RecoverableRun(f, c, Then(run, Act(w, StartWrite)))
  {
    MoveOp(c, s, w, StartWrite);
  }

  // ----- segments -----

  /** A waiting job, a free lock, an unused token and a row still to be delivered. */
  ghost predicate Ready(s: State, w: nat, t: nat) {
    && w !in s.workers && s.lock == None && t !in s.issued && !Terminal(s.row.status)
    && Original in s.jobs && s.jobs[Original].Live? && s.jobs[Original].owner == None
  }

  /** Worker `w` with token `t`, from pickup to its reading of the row. */
  function Begin(run: Run, w: nat, t: nat): Run {
    Then(Then(Then(run, Pickup(w, Original)), Act(w, Acquire(t))), Act(w, Look(true)))
  }

  /** The worker that has just read row `r`, standing at `pc`. */
  function Seated(r: Row, t: nat, pc: Pc): Worker {
    Worker(pc, Original, t, r.attemptCount + 1, r.status, |r.transitions|, Success, false, Returned)
  }

  function Begun(s: State, w: nat, t: nat, pc: Pc): State
    requires Original in s.jobs && s.jobs[Original].Live?
  {
    s.(lock := Some(t), issued := s.issued + {t}, workers := s.workers[w := Seated(s.row, t, pc)],
       jobs := s.jobs[Original := s.jobs[Original].(owner := Some(w))])
  }

  lemma BeginStates(c: Config, run: Run, s: State, w: nat, t: nat)
    requires s == After(c, run) && Ready(s, w, t)
    ensures After(c, Begin(run, w, t)) == Begun(s, w, t, Looked)
  {
    var r1 := Then(run, Pickup(w, Original));
    var r2 := Then(r1, Act(w, Acquire(t)));
    PickupStates(c, run, s, w, Original);
    AcquireStates(c, r1, After(c, r1), w, t);
    LookStates(c, r2, After(c, r2), w, true);
    assert Begun(s, w, t, Looked).workers == After(c, r2).workers[w := Seated(s.row, t, Looked)];
  }

  lemma BeginIsPlain(run: Run, w: nat, t: nat)
    ensures PlainSince(Begin(run, w, t), run)
    ensures PlainSince(Trip(run, w, t), run)
    ensures PlainSince(Admit(run, w, t), run)
  {
    assert PlainSince(Then(run, Pickup(w, Original)), run);
    assert PlainSince(Then(Then(run, Pickup(w, Original)), Act(w, Acquire(t))), run);
    assert PlainSince(Then(Begin(run, w, t), Act(w, Check(Closed))), run);
  }

  lemma PassStates(c: Config, run: Run, s: State, w: nat)
    requires s == After(c, run) && At(s, w, Looked)
    ensures After(c, Then(Then(run, Act(w, Check(Closed))), Act(w, Take(true)))) ==
            Put(s, w, s.workers[w].(pc := Admitted))
  {
    CheckStates(c, run, s, w, Closed);
    var s1 := Put(s, w, s.workers[w].(pc := Passed));
    TakeStates(c, Then(run, Act(w, Check(Closed))), s1, w, true);
    assert Put(s1, w, s.workers[w].(pc := Admitted)) == Put(s, w, s.workers[w].(pc := Admitted));
  }

  /** From pickup to just before the DELIVERING write. */
  function Admit(run: Run, w: nat, t: nat): Run {
    Then(Then(Begin(run, w, t), Act(w, Check(Closed))), Act(w, Take(true)))
  }

  lemma AdmitStates(c: Config, run: Run, s: State, w: nat, t: nat)
    requires s == After(c, run) && Ready(s, w, t)
    ensures After(c, Admit(run, w, t)) == Begun(s, w, t, Admitted)
  {
    BeginStates(c, run, s, w, t);
    PassStates(c, Begin(run, w, t), Begun(s, w, t, Looked), w);
    assert Put(Begun(s, w, t, Looked), w, Seated(s.row, t, Admitted)) == Begun(s, w, t, Admitted);
  }

  /** From pickup to the sight of an open breaker. */
  function Trip(run: Run, w: nat, t: nat): Run {
    Then(Begin(run, w, t), Act(w, Check(Open)))
  }

  lemma TripStates(c: Config, run: Run, s: State, w: nat, t: nat)
    requires s == After(c, run) && Ready(s, w, t)
    ensures After(c, Trip(run, w, t)) == Begun(s, w, t, Tripped)
  {
    BeginStates(c, run, s, w, t);
    CheckStates(c, Begin(run, w, t), Begun(s, w, t, Looked), w, Open);
  }

  /** From the DELIVERING write through a 200 answer to the record. */
  function Call(run: Run, w: nat): Run {
    Then(Then(run, Act(w, StartWrite)), Act(w, Answer(HttpStatus(200))))
  }

  lemma CallStates(c: Config, run: Run, s: State, w: nat)
    requires s == After(c, run) && At(s, w, Admitted)
    ensures var k := s.workers[w];
            After(c, Call(run, w)) ==
            Put(Dispatched(s, w), w,
                k.(pc := Answered, outcome := Success, lockLost := false, seen := |s.row.transitions| + 1))
  {
    StartStates(c, run, s, w);
    AnswerStates(c, Then(run, Act(w, StartWrite)), Dispatched(s, w), w, HttpStatus(200));
  }

  lemma CallKeeps(l: Lapse, f: Fault, c: Config, run: Run, s: State, w: nat)
    requires s == After(c, run) && At(s, w, Admitted) && !Terminal(s.row.status)
    requires s.lock == Some(s.workers[w].token)
    requires s.workers[w].n == s.row.attemptCount + 1 || f.StaleNumber?
    ensures Keeps(l, f, c, run, Call(run, w))
  {
    var r1 := Then(run, Act(w, StartWrite));
    if LeasedRun(l, c, run) {
      StartKeepsLease(l, c, run, s, w);
    }
    if RecoverableRun(f, c, run) {
      StartKeepsRecoverable(f, c, run, s, w);
    }
    PlainStep(l, f, c, r1, Act(w, Answer(HttpStatus(200))));
  }

  lemma Calls(l: Lapse, f: Fault, c: Config, run: Run, s: State, w: nat) returns (more: Run)
    requires s == After(c, run) && At(s, w, Admitted) && !Terminal(s.row.status)
    requires s.lock == Some(s.workers[w].token)
    requires s.workers[w].n == s.row.attemptCount + 1 || f.StaleNumber?
    ensures Keeps(l, f, c, run, more)
    ensures var k := s.workers[w];
            After(c, more) ==
            Put(Dispatched(s, w), w,
                k.(pc := Answered, outcome := Success, lockLost := false, seen := |s.row.transitions| + 1))
  {
    more := Call(run, w);
    CallStates(c, run, s, w);
    CallKeeps(l, f, c, run, s, w);
  }

  /** The recorded SUCCESS, under the lease. */
  lemma Succeeds(l: Lapse, f: Fault, c: Config, run: Run, s: State, w: nat) returns (more: Run)
    requires s == After(c, run) && At(s, w, Answered) && !Terminal(s.row.status)
    requires s.lock == Some(s.workers[w].token) || l.AtRecord?
    requires s.workers[w].n == s.row.attemptCount + 1 && s.workers[w].outcome == Success
    ensures Keeps(l, f, c, run, more)
    ensures var s' := After(c, more);
            && w in s'.workers && s' == Put(s, w, s'.workers[w]).(row := s'.row) && s'.row.status == Delivered
            && s'.row.attempts == s.row.attempts + [Attempt(s.row.attemptCount + 1, Success)]
  {
    Reachable(c, run);
    FreeIsNext(s.row, s.workers[w].n);
    RecordStates(c, run, s, w, 0);
    RecordKeeps(l, f, c, run, s, w);
    more := Then(run, Act(w, RecordWrite(0)));
  }

  lemma Finishes(l: Lapse, f: Fault, c: Config, run: Run, s: State, w: nat) returns (more: Run)
    requires s == After(c, run) && At(s, w, Admitted) && !Terminal(s.row.status)
    requires s.lock == Some(s.workers[w].token) && s.workers[w].n == s.row.attemptCount + 1
    ensures Keeps(l, f, c, run, more)
    ensures var s' := After(c, more);
            && s'.issued == s.issued && s'.row.status == Delivered
            && s'.row.attempts == s.row.attempts + [Attempt(s.row.attemptCount + 1, Success)]
            && w in s'.workers && s'.workers == s.workers[w := s'.workers[w]]
  {
    more := Calls(l, f, c, run, s, w);
    more := Succeeds(l, f, c, more, After(c, more), w);
  }

  /** The whole way under the lease: pickup, admission, a 200 answer, the recorded SUCCESS. */
  lemma Delivers(l: Lapse, f: Fault, c: Config, run: Run, s: State, w: nat, t: nat) returns (more: Run)
    requires s == After(c, run) && Ready(s, w, t)
    ensures Keeps(l, f, c, run, more)
    ensures var s' := After(c, more);
            && s'.issued == s.issued + {t} && s'.row.status == Delivered
            && s'.row.attempts == s.row.attempts + [Attempt(s.row.attemptCount + 1, Success)]
            && w in s'.workers && s'.workers == s.workers[w := s'.workers[w]]
  {
    more := Admits(l, f, c, run, s, w, t);
    more := Finishes(l, f, c, more, Begun(s, w, t, Admitted), w);
  }

  lemma Admits(l: Lapse, f: Fault, c: Config, run: Run, s: State, w: nat, t: nat) returns (more: Run)
    requires s == After(c, run) && Ready(s, w, t)
    ensures Keeps(l, f, c, run, more)
    ensures After(c, more) == Begun(s, w, t, Admitted)
  {
    more := Admit(run, w, t);
    AdmitStates(c, run, s, w, t);
    BeginIsPlain(run, w, t);
    PlainKeeps(l, f, c, run, more);
  }

  /** A moment at which a sweep finds the row due. */
  function Due(c: Config, s: State): nat {
    s.now + s.row.updatedAt + c.grace + (if s.row.nextAttemptAt.Some? then s.row.nextAttemptAt.value else 0) + 1
  }

  function Swept(c: Config, s: State): State {
    s.(lock := None, jobs := map[Original := Live(None, 0, 0)], now := Due(c, s), row := FlagTx(s.row, Due(c, s)))
  }

  /** Redis is wiped, time passes, and a sweep adds the job again. */
  lemma Resweeps(l: Lapse, f: Fault, c: Config, run: Run, s: State) returns (more: Run)
    requires s == After(c, run) && (s.row.status.Pending? || s.row.status.Failed?)
    ensures Keeps(l, f, c, run, more)
    ensures After(c, more) == Swept(c, s)
  {
    var r1 := Then(run, Wipe);
    WipeStates(c, run, s);
    PlainStep(l, f, c, run, Wipe);
    TickStates(c, r1, After(c, r1), Due(c, s));
    PlainStep(l, f, c, r1, Tick(Due(c, s)));
    var r2 := Then(r1, Tick(Due(c, s)));
    Reachable(c, run);
    SweepStates(c, r2, After(c, r2));
    PlainStep(l, f, c, r2, Sweep);
    more := Then(r2, Sweep);
  }

  function AddedLate(s: State): State {
    s.(lock := None, jobs := map[Original := Live(None, 0, 0)])
  }

  /** Redis is wiped, and only now the API's add arrives. */
  lemma AddsLate(l: Lapse, f: Fault, c: Config, run: Run, s: State) returns (more: Run)
    requires s == After(c, run)
    ensures Enqueues(more) == Enqueues(run) + 1
    ensures LeasedRun(l, c, run) ==> LeasedRun(l, c, more)
    ensures RecoverableRun(f, c, run) ==> RecoverableRun(f, c, more)
    ensures After(c, more) == AddedLate(s)
  {
    var r1 := Then(run, Wipe);
    WipeStates(c, run, s);
    PlainStep(l, f, c, run, Wipe);
    more := Then(r1, EnqueueAdd);
  }

  /** The API's add right after the ingest commit. */
  function First(): Run {
    Then(Commit, EnqueueAdd)
  }

  lemma FirstStates(l: Lapse, f: Fault, c: Config)
    ensures After(c, First()) == Init(c).(jobs := map[Original := Live(None, 0, 0)])
    ensures LeasedRun(l, c, First()) && RecoverableRun(f, c, First()) && Enqueues(First()) == 1
  {
  }

  // ----- delivered twice, or buried -----

  /** `w` delivers under its lease; `v`, admitted earlier, writes DELIVERING over it. */
  lemma Overtakes(c: Config, run: Run, s: State, v: nat, w: nat) returns (more: Run)
    requires s == After(c, run) && LeasedRun(AtStart, c, run)
    requires At(s, v, Admitted) && v != w && Ready(s, w, w)
    ensures LeasedRun(AtStart, c, more) && Enqueues(more) == Enqueues(run)
    ensures var s' := After(c, more);
            && s'.row.status == Delivering && s'.workers.Keys == s.workers.Keys + {w} && s'.issued == s.issued + {w}
            && s'.row.attempts == s.row.attempts + [Attempt(s.row.attemptCount + 1, Success)]
  {
    var b := Delivers(AtStart, NoFault, c, run, s, w, w);
    StartStates(c, b, After(c, b), v);
    StartKeepsLease(AtStart, c, b, After(c, b), v);
    more := Then(b, Act(v, StartWrite));
  }

  lemma TwoSuccesses(log: seq<Attempt>)
    requires |log| == 2 && log[0].outcome == Success && log[1].outcome == Success
    ensures Successes(log) == 2
  {
    assert Successes(log[..1]) == 1;
  }

  /** Without the lease at the DELIVERING write alone, the delivery succeeds twice: `v` is
      overtaken by `w`, writes DELIVERING over DELIVERED, and `x` delivers again. */
  lemma DeliversTwiceWithoutLease(c: Config, v: nat, w: nat, x: nat) returns (run: Run)
    requires v != w && w != x && v != x
    ensures LeasedRun(AtStart, c, run) && Enqueues(run) == 1
    ensures Successes(After(c, run).row.attempts) == 2
    ensures !OnceThroughout(c, run)
  {
    var a := Resweeps(AtStart, NoFault, c, Commit, Init(c));
    a := Admits(AtStart, NoFault, c, a, Swept(c, Init(c)), v, v);
    a := Resweeps(AtStart, NoFault, c, a, After(c, a));
    var b := Overtakes(c, a, After(c, a), v, w);
    run := DeliversAgain(c, b, After(c, b), x);
    TwoSuccesses(After(c, run).row.attempts);
  }

  lemma DeliversAgain(c: Config, run: Run, s: State, x: nat) returns (more: Run)
    requires s == After(c, run) && LeasedRun(AtStart, c, run) && s.row.status == Delivering
    requires x !in s.workers && x !in s.issued
    ensures LeasedRun(AtStart, c, more) && Enqueues(more) == Enqueues(run) + 1
    ensures After(c, more).row.attempts == s.row.attempts + [Attempt(s.row.attemptCount + 1, Success)]
  {
    more := AddsLate(AtStart, NoFault, c, run, s);
    more := Delivers(AtStart, NoFault, c, more, AddedLate(s), x, x);
  }

  /** `v` calls under its lease; then Redis is wiped, the API's add arrives and `w` is
      admitted with the same number. */
  lemma CalledThenWiped(c: Config, run: Run, s: State, v: nat, w: nat) returns (more: Run)
    requires s == After(c, run) && LeasedRun(AtRecord, c, run) && Ready(s, v, v)
    requires v != w && w !in s.workers && w !in s.issued
    ensures LeasedRun(AtRecord, c, more) && Enqueues(more) == Enqueues(run) + 1
    ensures var s' := After(c, more);
            && s'.row.status == Delivering && s'.lock == Some(w) && At(s', v, Answered)
            && s'.workers[v].n == s'.row.attemptCount + 1 && s'.workers[v].outcome == Success
            && At(s', w, Admitted) && s'.workers[w].token == w
  {
    more := Admits(AtRecord, NoFault, c, run, s, v, v);
    more := Calls(AtRecord, NoFault, c, more, After(c, more), v);
    var s1 := After(c, more);
    more := AddsLate(AtRecord, NoFault, c, more, s1);
    more := Admits(AtRecord, NoFault, c, more, AddedLate(s1), w, w);
  }

  lemma WipedThenAdmitted(l: Lapse, f: Fault, c: Config, run: Run, s: State, w: nat, t: nat) returns (more: Run)
    requires s == After(c, run) && (s.row.status.Pending? || s.row.status.Failed?)
    requires w !in s.workers && t !in s.issued
    ensures Keeps(l, f, c, run, more)
    ensures After(c, more) == Begun(Swept(c, s), w, t, Admitted)
  {
    more := Resweeps(l, f, c, run, s);
    more := Admits(l, f, c, more, Swept(c, s), w, t);
  }

  /** Without the lease at the SUCCESS record alone, `w` holds the lease and still writes
      DELIVERING over the SUCCESS that `v` recorded late. */
  lemma OverwritesWithoutRecordLease(c: Config, v: nat, w: nat) returns (run: Run)
    requires v != w
    ensures LeasedRun(AtRecord, c, run) && Enqueues(run) == 1
    ensures HasSuccess(After(c, run).row) && After(c, run).row.status == Delivering
    ensures !OnceThroughout(c, run)
  {
    var a := Resweeps(AtRecord, NoFault, c, Commit, Init(c));
    a := CalledThenWiped(c, a, Swept(c, Init(c)), v, w);
    run := RecordsLate(c, a, After(c, a), v, w);
  }

  lemma RecordsLate(c: Config, run: Run, s: State, v: nat, w: nat) returns (more: Run)
    requires s == After(c, run) && LeasedRun(AtRecord, c, run) && v != w && s.row.status == Delivering
    requires At(s, v, Answered) && s.workers[v].n == s.row.attemptCount + 1 && s.workers[v].outcome == Success
    requires At(s, w, Admitted) && s.lock == Some(s.workers[w].token)
    ensures LeasedRun(AtRecord, c, more) && Enqueues(more) == Enqueues(run)
    ensures HasSuccess(After(c, more).row) && After(c, more).row.status == Delivering
  {
    var a := Succeeds(AtRecord, NoFault, c, run, s, v);
    StartKeepsLease(AtRecord, c, a, After(c, a), w);
    StartStates(c, a, After(c, a), w);
    more := Then(a, Act(w, StartWrite));
    assert After(c, more).row.attempts[|s.row.attempts|].outcome.Success?;
  }

  // ----- an exhausted job -----

  /** An attempt's failure is reported; the last one also notifies the handler. */
  lemma FailureReported(c: Config, run: Run, s: State, w: nat)
    requires s == After(c, run) && At(s, w, Exiting) && s.workers[w].exit == ThrewRecorded
    requires Owns(s, s.workers[w].job, w)
    ensures var k := s.workers[w];
            var job := s.jobs[k.job];
            After(c, Then(run, Act(w, Report(false)))) ==
            if job.made + 1 < c.maxAttempts
            then s.(workers := s.workers - {w}, jobs := s.jobs[k.job := Live(None, job.made + 1, job.stalls)])
            else Put(s, w, k.(pc := Notified)).(jobs := s.jobs[k.job := Finished(true, job.made + 1)])
  {
  }

  /** The job waits with `made` attempts spent, each on an open breaker. */
  ghost predicate Waiting(s: State, made: nat) {
    && s.jobs == map[Original := Live(None, made, 0)] && s.workers == map[] && s.lock == None
    && (forall t | t in s.issued :: t < made) && !Terminal(s.row.status)
  }

  /** No token from `t` on has been drawn. */
  ghost predicate Unused(s: State, t: nat) {
    forall u: nat | t <= u :: u !in s.issued
  }

  /** The job is out of attempts, `w` has been notified of that and the row is FAILED. */
  ghost predicate Spent(c: Config, s: State, w: nat) {
    && s.workers.Keys == {w} && At(s, w, Notified) && s.row.status == Failed && s.lock == None
    && s.jobs.Keys == {Original} && OutOfAttempts(c, s, Original)
  }

  /** An open breaker is recorded under the next number. */
  lemma CircuitOpens(l: Lapse, f: Fault, c: Config, run: Run, s: State, w: nat) returns (more: Run)
    requires s == After(c, run) && At(s, w, Tripped) && !Terminal(s.row.status)
    requires s.workers[w].n == s.row.attemptCount + 1
    ensures Keeps(l, f, c, run, more)
    ensures var k, s' := s.workers[w], After(c, more);
            && At(s', w, Leaving) && s' == Put(s, w, s'.workers[w]).(row := s'.row) && s'.row.status == Failed
            && s'.workers[w].job == k.job && s'.workers[w].token == k.token && s'.workers[w].exit == ThrewRecorded
            && s'.row.transitions == s.row.transitions + [Transition(Some(k.from), Failed, Result(CircuitOpen), s.now)]
            && s'.row.attemptCount == s.row.attemptCount + 1
  {
    Reachable(c, run);
    FreeIsNext(s.row, s.workers[w].n);
    RecordStates(c, run, s, w, 0);
    RecordKeeps(l, f, c, run, s, w);
    more := Then(run, Act(w, RecordWrite(0)));
  }

  /** The worker has failed and unlocked; its job's `made`-th attempt is about to be spent. */
  ghost predicate Failing(s: State, w: nat, made: nat) {
    && s.jobs == map[Original := Live(Some(w), made, 0)] && s.workers.Keys == {w} && At(s, w, Exiting)
    && s.workers[w].job == Original && s.workers[w].exit == ThrewRecorded
    && s.lock == None && s.row.status == Failed
  }

  lemma Trips(l: Lapse, f: Fault, c: Config, run: Run, s: State, w: nat, t: nat) returns (more: Run)
    requires s == After(c, run) && Ready(s, w, t)
    ensures Keeps(l, f, c, run, more)
    ensures After(c, more) == Begun(s, w, t, Tripped)
  {
    more := Trip(run, w, t);
    TripStates(c, run, s, w, t);
    BeginIsPlain(run, w, t);
    PlainKeeps(l, f, c, run, more);
  }

  /** One pickup that records CIRCUIT_OPEN, up to its report. */
  lemma Blocked(l: Lapse, f: Fault, c: Config, run: Run, s: State, w: nat, made: nat) returns (more: Run)
    requires s == After(c, run) && Waiting(s, made)
    ensures Keeps(l, f, c, run, more)
    ensures var s' := After(c, more); Failing(s', w, made) && s'.issued == s.issued + {made}
  {
    more := Trips(l, f, c, run, s, w, made);
    more := CircuitOpens(l, f, c, more, After(c, more), w);
    UnlockStates(c, more, After(c, more), w);
    PlainStep(l, f, c, more, Act(w, Unlock));
    more := Then(more, Act(w, Unlock));
  }

  lemma SpendStates(c: Config, run: Run, s: State, w: nat, made: nat)
    requires s == After(c, run) && Failing(s, w, made) && forall t | t in s.issued :: t <= made
    ensures var s' := After(c, Then(run, Act(w, Report(false))));
            && s'.issued == s.issued
            && if made + 1 < c.maxAttempts then Waiting(s', made + 1) else Spent(c, s', w)
  {
    FailureReported(c, run, s, w);
  }

  lemma BlockedOnce(l: Lapse, f: Fault, c: Config, run: Run, s: State, w: nat, made: nat) returns (more: Run)
    requires s == After(c, run) && Waiting(s, made)
    ensures Keeps(l, f, c, run, more)
    ensures var s' := After(c, more);
            && s'.issued == s.issued + {made}
            && if made + 1 < c.maxAttempts then Waiting(s', made + 1) else Spent(c, s', w)
  {
    var a := Blocked(l, f, c, run, s, w, made);
    SpendStates(c, a, After(c, a), w, made);
    PlainStep(l, f, c, a, Act(w, Report(false)));
    more := Then(a, Act(w, Report(false)));
  }

  /** Every pickup meets an open breaker until the attempts are spent. */
  lemma {:induction false} Exhausts(l: Lapse, f: Fault, c: Config, run: Run, s: State, w: nat, made: nat)
    returns (more: Run, t: nat)
    requires s == After(c, run) && Waiting(s, made)
    ensures Keeps(l, f, c, run, more)
    ensures Spent(c, After(c, more), w) && Unused(After(c, more), t)
    decreases if made < c.maxAttempts then c.maxAttempts - made else 0
  {
    more := BlockedOnce(l, f, c, run, s, w, made);
    t := made + 1;
    if made + 1 < c.maxAttempts {
      more, t := Exhausts(l, f, c, more, After(c, more), w, made + 1);
    }
  }

  /** From ingest to an exhausted job. */
  lemma ExhaustsFromStart(l: Lapse, f: Fault, c: Config, w: nat) returns (run: Run, t: nat)
    ensures LeasedRun(l, c, run) && RecoverableRun(f, c, run) && Enqueues(run) == 1
    ensures Spent(c, After(c, run), w) && Unused(After(c, run), t)
  {
    FirstStates(l, f, c);
    run, t := Exhausts(l, f, c, First(), After(c, First()), w, 0);
  }

  // ----- the DLQ handler -----

  lemma HandlerReadStates(c: Config, run: Run, s: State, h: nat)
    requires s == After(c, run) && At(s, h, Notified) && s.row.status == Failed
    ensures After(c, Then(run, Act(h, HandlerRead))) == Put(s, h, s.workers[h].(pc := Burying, from := Failed))
  {
  }

  lemma HandlerWriteStates(c: Config, run: Run, s: State, h: nat)
    requires s == After(c, run) && At(s, h, Burying)
    ensures After(c, Then(run, Act(h, HandlerWrite))) ==
            s.(workers := s.workers - {h}, row := ApplyOp(s.row, Bury(s.workers[h].from), s.now))
  {
  }

  /** A DLQ write breaks no recovery rule. */
  lemma HandlerWriteRecovers(f: Fault, c: Config, run: Run, h: nat)
    requires RecoverableRun(f, c, run)
    ensures RecoverableRun(f, c, Then(run, Act(h, HandlerWrite)))
  {
    var s := After(c, run);
    if h in s.workers {
      MoveOp(c, s, h, HandlerWrite);
    }
  }

  /** It follows a recorded failure while the row is FAILED. */
  lemma HandlerWriteLeased(l: Lapse, c: Config, run: Run, s: State, h: nat)
    requires s == After(c, run) && At(s, h, Burying) && (s.row.status == Failed || l.AtBurial?)
    requires LeasedRun(l, c, run)
    ensures LeasedRun(l, c, Then(run, Act(h, HandlerWrite)))
  {
    MoveOp(c, s, h, HandlerWrite);
    if s.row.status == Failed {
      Reachable(c, run);
      LastReport(s.row);
    }
  }

  /** A spent job's handler has read FAILED. */
  lemma HandlerReads(l: Lapse, f: Fault, c: Config, h: nat) returns (run: Run, t: nat)
    ensures LeasedRun(l, c, run) && RecoverableRun(f, c, run) && Enqueues(run) == 1
    ensures var s := After(c, run);
            && s.workers.Keys == {h} && At(s, h, Burying) && s.row.status == Failed && Unused(s, t)
            && s.jobs.Keys == {Original} && s.jobs[Original].Finished?
  {
    var a;
    a, t := ExhaustsFromStart(l, f, c, h);
    HandlerReadStates(c, a, After(c, a), h);
    PlainStep(l, f, c, a, Act(h, HandlerRead));
    run := Then(a, Act(h, HandlerRead));
  }

  lemma HandlerWrites(l: Lapse, f: Fault, c: Config, run: Run, s: State, h: nat) returns (more: Run)
    requires s == After(c, run) && LeasedRun(l, c, run) && RecoverableRun(f, c, run)
    requires At(s, h, Burying) && s.row.status == Failed
    ensures LeasedRun(l, c, more) && RecoverableRun(f, c, more) && Enqueues(more) == Enqueues(run)
    ensures After(c, more) == s.(workers := s.workers - {h}, row := ApplyOp(s.row, Bury(s.workers[h].from), s.now))
  {
    HandlerWriteStates(c, run, s, h);
    HandlerWriteLeased(l, c, run, s, h);
    HandlerWriteRecovers(f, c, run, h);
    more := Then(run, Act(h, HandlerWrite));
  }

  /** Without the handler's rule alone: the job is spent, its handler reads FAILED, the job
      is added again after a wipe and `w` delivers under its lease; then the handler buries
      the delivered row. */
  lemma HandlerBuriesDelivered(c: Config, h: nat, w: nat) returns (run: Run)
    requires h != w
    ensures LeasedRun(AtBurial, c, run) && Enqueues(run) == 1
    ensures HasSuccess(After(c, run).row) && After(c, run).row.status == Dlq
    ensures !OnceThroughout(c, run)
  {
    var b, t := HandlerReads(AtBurial, NoFault, c, h);
    b := Resweeps(AtBurial, NoFault, c, b, After(c, b));
    run := Buries(c, b, After(c, b), h, w, t);
  }

  lemma Buries(c: Config, run: Run, s: State, h: nat, w: nat, t: nat) returns (more: Run)
    requires s == After(c, run) && LeasedRun(AtBurial, c, run) && At(s, h, Burying) && h != w && Ready(s, w, t)
    ensures LeasedRun(AtBurial, c, more) && Enqueues(more) == Enqueues(run)
    ensures HasSuccess(After(c, more).row) && After(c, more).row.status == Dlq
  {
    var b := Delivers(AtBurial, NoFault, c, run, s, w, t);
    HandlerWriteStates(c, b, After(c, b), h);
    HandlerWriteLeased(AtBurial, c, b, After(c, b), h);
    more := Then(b, Act(h, HandlerWrite));
    assert After(c, more).row.attempts[|s.row.attempts|].outcome.Success?;
  }

  // ----- stranded deliveries -----

  /** A DELIVERING row with an empty queue. */
  lemma EmptyQueueStrands(c: Config, run: Run, s: State)
    requires s == After(c, run) && s.row.status == Delivering && s.workers == map[] && s.jobs == map[]
    ensures Stranded(c, s)
  {
    Reachable(c, run);
    StrandedIff(c, s);
  }

  /** A job kept under the delivery's own id. */
  lemma RetainedIdStrands(c: Config, run: Run, s: State)
    requires s == After(c, run) && !Terminal(s.row.status) && s.workers == map[]
    requires s.jobs.Keys == {Original} && s.jobs[Original].Finished?
    ensures Stranded(c, s)
  {
    Reachable(c, run);
    StrandedIff(c, s);
  }

  /** An API crash between the retry transaction and its add strands the delivery: the
      original id is retained as failed, so sweeps add nothing. */
  lemma LostRetryStrands(c: Config, w: nat) returns (run: Run)
    ensures LeasedRun(NoLapse, c, run) && RecoverableRun(LostRetry, c, run) && Enqueues(run) == 1
    ensures Stranded(c, After(c, run)) && After(c, run).row.status == Pending
  {
    var b, t := HandlerReads(NoLapse, LostRetry, c, w);
    var d := HandlerWrites(NoLapse, LostRetry, c, b, After(c, b), w);
    run := RetriesInVain(c, d, After(c, d));
  }

  lemma RetriesInVain(c: Config, run: Run, s: State) returns (more: Run)
    requires s == After(c, run) && LeasedRun(NoLapse, c, run) && RecoverableRun(LostRetry, c, run)
    requires s.row.status == Dlq && s.workers == map[] && s.jobs.Keys == {Original} && s.jobs[Original].Finished?
    ensures LeasedRun(NoLapse, c, more) && RecoverableRun(LostRetry, c, more) && Enqueues(more) == Enqueues(run)
    ensures Stranded(c, After(c, more)) && After(c, more).row.status == Pending
  {
    more := Then(run, RetryCall(None));
    RetainedIdStrands(c, more, After(c, more));
  }

  /** A database error in the DLQ handler strands the delivery in FAILED: the exhausted job
      is retained under the id every sweep would use. */
  lemma FailedBurialStrands(c: Config, w: nat) returns (run: Run)
    ensures LeasedRun(NoLapse, c, run) && RecoverableRun(LostBurial, c, run) && Enqueues(run) == 1
    ensures Stranded(c, After(c, run)) && After(c, run).row.status == Failed
  {
    var a, t := ExhaustsFromStart(NoLapse, LostBurial, c, w);
    run := Then(a, Act(w, Fail));
    HandlerFailsStates(c, a, After(c, a), w);
    HandlerFailsKeeps(c, a, After(c, a), w);
    RetainedIdStrands(c, run, After(c, run));
  }

  /** The handler only logs a failed read or write. */
  lemma HandlerFailsStates(c: Config, run: Run, s: State, w: nat)
    requires s == After(c, run) && At(s, w, Notified)
    ensures After(c, Then(run, Act(w, Fail))) == s.(workers := s.workers - {w})
  {
  }

  lemma HandlerFailsKeeps(c: Config, run: Run, s: State, w: nat)
    requires s == After(c, run) && At(s, w, Notified)
    ensures Keeps(NoLapse, LostBurial, c, run, Then(run, Act(w, Fail)))
  {
    assert OpOf(c, s, Act(w, Fail)) == Noop;
  }

  // ----- a job that stalls too often -----

  /** A worker takes the job and dies; the queue finds it stalled. */
  function Dropped(run: Run, w: nat): Run {
    Then(Then(Then(run, Pickup(w, Original)), Act(w, Crash)), Stall(Original))
  }

  ghost predicate Stalling(c: Config, s: State, job: Job) {
    s == Init(c).(jobs := map[Original := job])
  }

  lemma CrashStates(c: Config, run: Run, s: State, w: nat)
    requires s == After(c, run) && w in s.workers
    ensures After(c, Then(run, Act(w, Crash))) == s.(workers := s.workers - {w})
  {
  }

  lemma CrashKeeps(l: Lapse, f: Fault, c: Config, run: Run, s: State, w: nat)
    requires s == After(c, run) && w in s.workers && !Handling(s.workers[w])
    requires InFlight(s.workers[w]) ==> f.LostCall?
    ensures Keeps(l, f, c, run, Then(run, Act(w, Crash)))
  {
    assert OpOf(c, s, Act(w, Crash)) == Noop;
  }

  lemma StallStates(c: Config, run: Run, s: State, j: JobId)
    requires s == After(c, run) && Handed(s, j)
    ensures After(c, Then(run, Stall(j))) == s.(jobs := s.jobs[j := StalledJob(c, s.jobs[j])])
    ensures Keeps(NoLapse, TooManyStalls, c, run, Then(run, Stall(j)))
  {
  }

  lemma DroppedStates(c: Config, run: Run, s: State, w: nat, stalls: nat)
    requires s == After(c, run) && Stalling(c, s, Live(None, 0, stalls))
    ensures Stalling(c, After(c, Dropped(run, w)), StalledJob(c, Live(Some(w), 0, stalls)))
    ensures Keeps(NoLapse, TooManyStalls, c, run, Dropped(run, w))
  {
    var r1 := Then(run, Pickup(w, Original));
    PickupStates(c, run, s, w, Original);
    PlainStep(NoLapse, TooManyStalls, c, run, Pickup(w, Original));
    CrashStates(c, r1, After(c, r1), w);
    CrashKeeps(NoLapse, TooManyStalls, c, r1, After(c, r1), w);
    var r2 := Then(r1, Act(w, Crash));
    assert After(c, r2).workers == map[];
    StallStates(c, r2, After(c, r2), Original);
  }

  lemma {:induction false} StallsOut(c: Config, run: Run, s: State, w: nat, stalls: nat) returns (more: Run)
    requires s == After(c, run) && Stalling(c, s, Live(None, 0, stalls)) && stalls <= c.maxStalls
    ensures Keeps(NoLapse, TooManyStalls, c, run, more)
    ensures Stalling(c, After(c, more), Finished(true, 0))
    decreases c.maxStalls - stalls
  {
    more := Dropped(run, w);
    DroppedStates(c, run, s, w, stalls);
    if stalls < c.maxStalls {
      more := StallsOut(c, more, After(c, more), w, stalls + 1);
    }
  }

  /** A job handed out `maxStalls + 1` times to workers that died fails with no attempt
      spent, so no handler acts on it, and its retained id blocks every later sweep. */
  lemma StallStrands(c: Config, w: nat) returns (run: Run)
    ensures LeasedRun(NoLapse, c, run) && RecoverableRun(TooManyStalls, c, run) && Enqueues(run) == 1
    ensures Stranded(c, After(c, run)) && After(c, run).row == NewRow(c.createdAt)
  {
    FirstStates(NoLapse, TooManyStalls, c);
    run := StallsOut(c, First(), After(c, First()), w, 0);
    RetainedIdStrands(c, run, After(c, run));
  }

  // ----- a stale number under the lease -----

  /** `v` and `w` both read the row; `v` saw the breaker open, `w` holds the lock. */
  ghost predicate Shared(s: State, v: nat, w: nat) {
    && v != w && s.workers.Keys == {v, w} && At(s, v, Tripped) && At(s, w, Admitted)
    && s.workers[v].n == s.row.attemptCount + 1 && s.workers[w].n == s.workers[v].n
    && s.lock == Some(s.workers[w].token) && !Terminal(s.row.status) && s.workers[v].token != s.workers[w].token
  }

  lemma SharesNumber(c: Config, run: Run, s: State, v: nat, w: nat) returns (more: Run)
    requires s == After(c, run) && v != w && s.workers == map[] && Ready(s, v, v) && w !in s.issued
    requires s.row.status.Pending?
    ensures Keeps(NoLapse, StaleNumber, c, run, more)
    ensures Shared(After(c, more), v, w) && After(c, more).row.transitions == s.row.transitions
    ensures After(c, more).row.attemptCount == s.row.attemptCount
  {
    more := Trips(NoLapse, StaleNumber, c, run, s, v, v);
    more := WipedThenAdmitted(NoLapse, StaleNumber, c, more, After(c, more), w, w);
  }

  /** `v` takes the number and `w`, under the lease, writes DELIVERING with it. */
  lemma WritesStale(c: Config, run: Run, s: State, v: nat, w: nat) returns (more: Run)
    requires s == After(c, run) && Shared(s, v, w)
    ensures Keeps(NoLapse, StaleNumber, c, run, more)
    ensures var s' := After(c, more);
            && s'.workers.Keys == {v, w} && At(s', v, Leaving) && At(s', w, Answered) && s'.row.status == Delivering
            && s'.lock == Some(s'.workers[w].token) && s'.workers[w].n <= s'.row.attemptCount
            && var n := |s.row.transitions|;
               && |s'.row.transitions| == n + 2 && s'.row.transitions[n].reason == Result(CircuitOpen)
               && s'.row.transitions[n + 1].reason == StartAttempt(s.workers[w].n)
  {
    more := CircuitOpens(NoLapse, StaleNumber, c, run, s, v);
    more := Calls(NoLapse, StaleNumber, c, more, After(c, more), w);
  }

  /** The record aborts; Redis is wiped and both workers leave. */
  lemma Sinks(c: Config, run: Run, s: State, v: nat, w: nat) returns (more: Run)
    requires s == After(c, run) && v != w && s.workers.Keys == {v, w} && At(s, v, Leaving) && At(s, w, Answered)
    requires s.row.status == Delivering && s.lock == Some(s.workers[w].token) && s.workers[w].n <= s.row.attemptCount
    ensures Keeps(NoLapse, StaleNumber, c, run, more)
    ensures After(c, more).row == s.row && After(c, more).workers == map[] && After(c, more).jobs == map[]
  {
    Reachable(c, run);
    FreeIsNext(s.row, s.workers[w].n);
    RecordStates(c, run, s, w, 0);
    RecordKeeps(NoLapse, StaleNumber, c, run, s, w);
    var a := Then(run, Act(w, RecordWrite(0)));
    WipeStates(c, a, After(c, a));
    PlainStep(NoLapse, StaleNumber, c, a, Wipe);
    more := BothLeave(c, Then(a, Wipe), After(c, Then(a, Wipe)), v, w);
  }

  /** `finally`, then the report to the queue. */
  function Leave(run: Run, w: nat): Run {
    Then(Then(run, Act(w, Unlock)), Act(w, Report(false)))
  }

  lemma LeaveKeeps(l: Lapse, f: Fault, c: Config, run: Run, w: nat)
    ensures Keeps(l, f, c, run, Leave(run, w))
  {
    assert PlainSince(Then(run, Act(w, Unlock)), run);
    PlainKeeps(l, f, c, run, Leave(run, w));
  }

  /** A worker whose job is no longer its own leaves without a trace. */
  lemma LeaveStates(l: Lapse, f: Fault, c: Config, run: Run, s: State, w: nat)
    requires s == After(c, run) && At(s, w, Leaving) && !Owns(s, s.workers[w].job, w)
    ensures var s' := After(c, Leave(run, w));
            s'.row == s.row && s'.jobs == s.jobs && s'.workers == s.workers - {w}
    ensures Keeps(l, f, c, run, Leave(run, w))
  {
    UnlockStates(c, run, s, w);
    var r1 := Then(run, Act(w, Unlock));
    GoneStates(c, r1, After(c, r1), w);
    assert After(c, r1).workers - {w} == s.workers - {w};
    LeaveKeeps(l, f, c, run, w);
  }

  lemma GoneStates(c: Config, run: Run, s: State, w: nat)
    requires s == After(c, run) && At(s, w, Exiting) && !Owns(s, s.workers[w].job, w)
    ensures After(c, Then(run, Act(w, Report(false)))) == s.(workers := s.workers - {w})
  {
  }

  lemma BothLeave(c: Config, run: Run, s: State, v: nat, w: nat) returns (more: Run)
    requires s == After(c, run) && v != w && s.workers.Keys == {v, w} && At(s, v, Leaving) && At(s, w, Leaving)
    requires s.jobs == map[]
    ensures Keeps(NoLapse, StaleNumber, c, run, more)
    ensures After(c, more).row == s.row && After(c, more).workers == map[] && After(c, more).jobs == map[]
  {
    LeaveStates(NoLapse, StaleNumber, c, run, s, w);
    var b := Leave(run, w);
    LeaveStates(NoLapse, StaleNumber, c, b, After(c, b), v);
    more := Leave(b, v);
  }

  /** Holding the lease at every DELIVERING write and every SUCCESS record does not prevent
      a stuck DELIVERING row: the run's only DELIVERING write carries a number that the
      record before it has just taken. */
  lemma LeasedWriteStrands(c: Config, v: nat, w: nat) returns (run: Run)
    requires v != w
    ensures LeasedRun(NoLapse, c, run) && RecoverableRun(StaleNumber, c, run) && Enqueues(run) == 1
    ensures Stranded(c, After(c, run)) && After(c, run).row.status == Delivering
    ensures var ts := After(c, run).row.transitions;
            |ts| == 3 && ts[1].reason == Result(CircuitOpen) && ts[2].reason == StartAttempt(1)
  {
    FirstStates(NoLapse, StaleNumber, c);
    var a := SharesNumber(c, First(), After(c, First()), v, w);
    var b := WritesStale(c, a, After(c, a), v, w);
    run := Sinks(c, b, After(c, b), v, w);
    EmptyQueueStrands(c, run, After(c, run));
  }

  // ----- a worker that dies in its call -----

  /** A worker that dies after its DELIVERING write, with its job wiped, leaves DELIVERING
      behind. */
  lemma LostCallStrands(c: Config, w: nat) returns (run: Run)
    ensures LeasedRun(NoLapse, c, run) && RecoverableRun(LostCall, c, run) && Enqueues(run) == 1
    ensures Stranded(c, After(c, run)) && After(c, run).row.status == Delivering
  {
    FirstStates(NoLapse, LostCall, c);
    var a := Admits(NoLapse, LostCall, c, First(), After(c, First()), w, w);
    run := DiesInCall(c, a, After(c, a), w);
  }

  lemma DiesInCall(c: Config, run: Run, s: State, w: nat) returns (more: Run)
    requires s == After(c, run) && LeasedRun(NoLapse, c, run) && RecoverableRun(LostCall, c, run)
    requires At(s, w, Admitted) && s.workers.Keys == {w} && s.lock == Some(s.workers[w].token)
    requires !Terminal(s.row.status) && s.workers[w].n == s.row.attemptCount + 1
    ensures LeasedRun(NoLapse, c, more) && RecoverableRun(LostCall, c, more) && Enqueues(more) == Enqueues(run)
    ensures Stranded(c, After(c, more)) && After(c, more).row.status == Delivering
  {
    more := Calls(NoLapse, LostCall, c, run, s, w);
    CrashStates(c, more, After(c, more), w);
    CrashKeeps(NoLapse, LostCall, c, more, After(c, more), w);
    more := Then(more, Act(w, Crash));
    assert After(c, more).workers == map[];
    more := Empties(NoLapse, LostCall, c, more, After(c, more));
    EmptyQueueStrands(c, more, After(c, more));
  }

  lemma Empties(l: Lapse, f: Fault, c: Config, run: Run, s: State) returns (more: Run)
    requires s == After(c, run)
    ensures Keeps(l, f, c, run, more)
    ensures After(c, more) == s.(lock := None, jobs := map[])
  {
    WipeStates(c, run, s);
    PlainStep(l, f, c, run, Wipe);
    more := Then(run, Wipe);
  }

  // ----- a write over the DLQ -----

  /** A handler has buried the row while `v`, admitted before, has lost its job and lease. */
  lemma BuriedMeanwhile(c: Config, v: nat, h: nat) returns (run: Run, t: nat)
    requires v != h
    ensures LeasedRun(AtStart, c, run) && RecoverableRun(OverTerminal, c, run) && Enqueues(run) == 1
    ensures var s := After(c, run);
            && s.row.status == Dlq && s.lock == None && s.jobs == map[Original := Live(None, 0, 0)]
            && s.workers.Keys == {v} && At(s, v, Admitted) && s.workers[v].job == Original
            && s.workers[v].n == s.row.attemptCount + 1 && t !in s.issued
  {
    var u;
    run, u := HandlerReads(AtStart, OverTerminal, c, h);
    run := WipedThenAdmitted(AtStart, OverTerminal, c, run, After(c, run), v, u);
    run := Resweeps(AtStart, OverTerminal, c, run, After(c, run));
    run := HandlerWrites(AtStart, OverTerminal, c, run, After(c, run), h);
    t := u + 1;
  }

  /** `x` picks the job up, finds a terminal row and completes it. */
  lemma FindsTerminal(l: Lapse, f: Fault, c: Config, run: Run, s: State, x: nat, t: nat) returns (more: Run)
    requires s == After(c, run) && s.row.status == Dlq && s.lock == None
    requires s.jobs == map[Original := Live(None, 0, 0)] && x !in s.workers && t !in s.issued
    ensures Keeps(l, f, c, run, more)
    ensures var s' := After(c, more);
            && s'.row == s.row && s'.workers == s.workers && s'.jobs == map[Original := Finished(false, 0)]
  {
    more := Reads(l, f, c, run, s, x, t);
    more := Returns(l, f, c, more, After(c, more), x);
  }

  lemma Reads(l: Lapse, f: Fault, c: Config, run: Run, s: State, x: nat, t: nat) returns (more: Run)
    requires s == After(c, run) && s.row.status == Dlq && s.lock == None
    requires s.jobs == map[Original := Live(None, 0, 0)] && x !in s.workers && t !in s.issued
    ensures Keeps(l, f, c, run, more)
    ensures var s' := After(c, more);
            && s'.row == s.row && s'.jobs == map[Original := Live(Some(x), 0, 0)] && At(s', x, Leaving)
            && s'.workers == s.workers[x := s'.workers[x]] && s'.workers[x].exit == Returned
            && s'.workers[x].job == Original
  {
    var r1 := Then(run, Pickup(x, Original));
    PickupStates(c, run, s, x, Original);
    PlainStep(l, f, c, run, Pickup(x, Original));
    AcquireStates(c, r1, After(c, r1), x, t);
    PlainStep(l, f, c, r1, Act(x, Acquire(t)));
    var r2 := Then(r1, Act(x, Acquire(t)));
    LookStates(c, r2, After(c, r2), x, true);
    PlainStep(l, f, c, r2, Act(x, Look(true)));
    more := Then(r2, Act(x, Look(true)));
  }

  lemma Returns(l: Lapse, f: Fault, c: Config, run: Run, s: State, x: nat) returns (more: Run)
    requires s == After(c, run) && At(s, x, Leaving) && s.workers[x].exit == Returned
    requires s.workers[x].job == Original && s.jobs == map[Original := Live(Some(x), 0, 0)]
    ensures Keeps(l, f, c, run, more)
    ensures var s' := After(c, more);
            && s'.row == s.row && s'.workers == s.workers - {x} && s'.jobs == map[Original := Finished(false, 0)]
  {
    UnlockStates(c, run, s, x);
    var r1 := Then(run, Act(x, Unlock));
    ReturnStates(c, r1, After(c, r1), x);
    assert After(c, r1).workers - {x} == s.workers - {x};
    LeaveKeeps(l, f, c, run, x);
    more := Leave(run, x);
  }

  lemma ReturnStates(c: Config, run: Run, s: State, x: nat)
    requires s == After(c, run) && At(s, x, Exiting) && s.workers[x].exit == Returned && Owns(s, s.workers[x].job, x)
    ensures var id := s.workers[x].job;
            After(c, Then(run, Act(x, Report(false)))) ==
            s.(workers := s.workers - {x}, jobs := s.jobs[id := Finished(false, s.jobs[id].made)])
  {
  }

  /** `v` writes DELIVERING over the DLQ and records a failure; its job is gone. */
  lemma Resurrects(c: Config, run: Run, s: State, v: nat) returns (more: Run)
    requires s == After(c, run) && LeasedRun(AtStart, c, run) && RecoverableRun(OverTerminal, c, run)
    requires At(s, v, Admitted) && s.workers.Keys == {v} && s.workers[v].job == Original
    requires s.workers[v].n == s.row.attemptCount + 1 && s.jobs == map[Original := Finished(false, 0)]
    ensures LeasedRun(AtStart, c, more) && RecoverableRun(OverTerminal, c, more) && Enqueues(more) == Enqueues(run)
    ensures Stranded(c, After(c, more)) && After(c, more).row.status == Failed
  {
    StartStates(c, run, s, v);
    StartKeepsLease(AtStart, c, run, s, v);
    StartKeepsRecoverable(OverTerminal, c, run, s, v);
    var r1 := Then(run, Act(v, StartWrite));
    AnswerStates(c, r1, Dispatched(s, v), v, HttpStatus(500));
    PlainStep(AtStart, OverTerminal, c, r1, Act(v, Answer(HttpStatus(500))));
    var r2 := Then(r1, Act(v, Answer(HttpStatus(500))));
    more := FailsAndLeaves(c, r2, After(c, r2), v);
  }

  lemma FailsAndLeaves(c: Config, run: Run, s: State, v: nat) returns (more: Run)
    requires s == After(c, run) && LeasedRun(AtStart, c, run) && RecoverableRun(OverTerminal, c, run)
    requires At(s, v, Answered) && s.workers.Keys == {v} && s.workers[v].job == Original && s.row.status == Delivering
    requires s.workers[v].n == s.row.attemptCount + 1 && s.workers[v].outcome == HttpError
    requires s.jobs == map[Original := Finished(false, 0)]
    ensures LeasedRun(AtStart, c, more) && RecoverableRun(OverTerminal, c, more) && Enqueues(more) == Enqueues(run)
    ensures Stranded(c, After(c, more)) && After(c, more).row.status == Failed
  {
    Reachable(c, run);
    FreeIsNext(s.row, s.workers[v].n);
    RecordStates(c, run, s, v, 0);
    RecordKeeps(AtStart, OverTerminal, c, run, s, v);
    var r1 := Then(run, Act(v, RecordWrite(0)));
    LeaveStates(AtStart, OverTerminal, c, r1, After(c, r1), v);
    more := Leave(r1, v);
    RetainedIdStrands(c, more, After(c, more));
  }

  /** A current number is not enough either: `v` writes DELIVERING over the DLQ after `x` has
      completed the job on seeing it, and its recorded failure is left without a job. */
  lemma OverTerminalStrands(c: Config, v: nat, h: nat, x: nat) returns (run: Run)
    requires v != h && v != x
    ensures LeasedRun(AtStart, c, run) && RecoverableRun(OverTerminal, c, run) && Enqueues(run) == 1
    ensures Stranded(c, After(c, run)) && After(c, run).row.status == Failed
  {
    var t;
    run, t := BuriedMeanwhile(c, v, h);
    run := FindsTerminal(AtStart, OverTerminal, c, run, After(c, run), x, t);
    run := Resurrects(c, run, After(c, run), v);
  }
}
