/** `processDelivery` and `handleFailed` as code, run without interleaving, and the budget
    of one job. */
module Processor {
  import opened Rows
  import opened Protocol
  import opened Fencing
  import opened Steps
  import Once
  import Lease
  import Breaker
  import Bucket

  /** What one pickup meets: the lock, the endpoint, the breaker, the bucket, the call, the
      retry time it computes, and when it starts and records. */
  datatype Env = Env(acquired: bool, active: bool, verdict: Verdict, taken: bool, lockLost: bool, http: HttpResult,
                     next: nat, now: nat, done: nat)

  // ----- the row and the exit, by cases -----

  /** Queue mechanics only: no delivery event takes place. */
  predicate Defers(r: Row, e: Env) {
    !e.acquired || (!Terminal(r.status) && (!e.active || (!e.verdict.Open? && !e.taken)))
  }

  function OutcomeIn(e: Env): Outcome {
    if e.verdict.Open? then CircuitOpen else OutcomeOf(e.lockLost, e.http)
  }

  /** A pickup that is neither deferred nor terminal appends one attempt, preceded by a
      DELIVERING row unless the breaker was open. */
  function PickupRow(r: Row, e: Env): Row {
    if Defers(r, e) || Terminal(r.status) then r
    else
      var o := OutcomeIn(e);
      var n := r.attemptCount + 1;
      if e.verdict.Open? then ApplyOp(r, Record(n, o, r.status, e.next), e.done)
      else ApplyOp(ApplyOp(r, Start(r.status, n), e.now), Record(n, o, Delivering, e.next), e.done)
  }

  function PickupExit(r: Row, e: Env): Exit {
    if Defers(r, e) then Deferred
    else if Terminal(r.status) then Returned
    else if OutcomeIn(e).Success? then Returned
    else ThrewRecorded
  }

  // ----- which answers count -----

  /** What an admitted pickup records, whatever the call came to. */
  ghost predicate RecordsAnswer(e: Env, o: Outcome) {
    && (e.lockLost ==> o == LockLost)
    && (!e.lockLost && e.http == TimedOut ==> o == Timeout)
    && (!e.lockLost && e.http == ConnFailed ==> o == ConnError)
    && (!e.lockLost && e.http.HttpStatus? && 200 <= e.http.code <= 299 ==> o == Success)
    && (!e.lockLost && e.http.HttpStatus? && (e.http.code < 200 || e.http.code > 299) ==> o == HttpError)
  }

  /** The pickup is admitted and its call answered 2xx with the lock kept. */
  predicate Accepted(e: Env) {
    !e.lockLost && e.http.HttpStatus? && 200 <= e.http.code <= 299
  }

  /** An admitted pickup delivers exactly on a 2xx answer under a kept lock, and its attempt
      row says what happened otherwise; an open breaker records CIRCUIT_OPEN. */
  lemma DeliveredIffAccepted(r: Row, e: Env)
    requires RowInv(r) && e.acquired && e.active && !Terminal(r.status)
    ensures var r' := PickupRow(r, e);
            && (!e.verdict.Open? && e.taken ==>
                  && (if Accepted(e) then r'.status == Delivered && r'.nextAttemptAt == None
                      else r'.status == Failed && r'.nextAttemptAt == Some(e.next))
                  && |r'.attempts| == |r.attempts| + 1 && r.attempts <= r'.attempts
                  && r'.attempts[|r.attempts|].number == |r.attempts| + 1
                  && RecordsAnswer(e, r'.attempts[|r.attempts|].outcome))
            && (e.verdict.Open? ==>
                  && r'.status == Failed && r'.nextAttemptAt == Some(e.next)
                  && r'.attempts == r.attempts + [Attempt(|r.attempts| + 1, CircuitOpen)])
  {
    StartKeepsRow(r, e.now);
    RecordStores(r, CircuitOpen, r.status, e.next, e.done);
    RecordStores(ApplyOp(r, Start(r.status, r.attemptCount + 1), e.now), OutcomeOf(e.lockLost, e.http), Delivering,
                 e.next, e.done);
  }

  /** The row is DELIVERED exactly if the call was accepted, FAILED if not, and its last
      attempt says why. */
  ghost predicate ShowsAnswer(e: Env, r: Row) {
    && r.status == (if Accepted(e) then Delivered else Failed)
    && r.attempts != [] && RecordsAnswer(e, r.attempts[|r.attempts| - 1].outcome)
  }

  lemma AnswerShown(r: Row, e: Env)
    ensures RowInv(r) && Admits(r, e) ==> ShowsAnswer(e, PickupRow(r, e))
  {
    if RowInv(r) && Admits(r, e) {
      DeliveredIffAccepted(r, e);
    }
  }

  // ----- the budget of one job -----

  /** A job in progress: the row, the attempts made, and whether the job is over. */
  datatype JobRun = JobRun(row: Row, made: nat, over: bool)

  /** One pickup and BullMQ's reaction, DLQ handler included. */
  function NextJob(j: JobRun, e: Env, max: nat): JobRun {
    if j.over then j else React(j.made, PickupRow(j.row, e), PickupExit(j.row, e), max, e.done)
  }

  /** The reaction to an exit that left the row at `r`. */
  function React(made: nat, r: Row, exit: Exit, max: nat, done: nat): JobRun {
    if exit.Deferred? then JobRun(r, made, false)
    else if exit.Returned? then JobRun(r, made, true)
    else if made + 1 < max then JobRun(r, made + 1, false)
    else JobRun(if r.status.Dlq? then r else ApplyOp(r, Bury(r.status), done), made + 1, true)
  }

  function RunJob(j: JobRun, es: seq<Env>, max: nat): JobRun {
    if es == [] then j else NextJob(RunJob(j, es[..|es| - 1], max), es[|es| - 1], max)
  }

  /** Pickups that were not deferred, before the job was over. */
  function Counted(j: JobRun, es: seq<Env>, max: nat): nat {
    if es == [] then 0
    else
      var before := RunJob(j, es[..|es| - 1], max);
      Counted(j, es[..|es| - 1], max) + (if before.over || Defers(before.row, es[|es| - 1]) then 0 else 1)
  }

  /** Lock contention, an inactive endpoint and the rate limit write nothing and consume
      nothing. */
  lemma DeferredChangesNothing(j: JobRun, e: Env, max: nat)
    requires Defers(j.row, e)
    ensures NextJob(j, e, max) == j
  {
  }

  lemma RecordKeepsRow(r: Row, o: Outcome, from: Status, next: nat, now: nat)
    requires RowInv(r)
    ensures var r' := ApplyOp(r, Record(r.attemptCount + 1, o, from, next), now);
            && RowInv(r') && r'.attempts == r.attempts + [Attempt(r.attemptCount + 1, o)]
            && r'.attemptCount == r.attemptCount + 1 && r'.status == StatusOf(o)
  {
    FreeIsNext(r, r.attemptCount + 1);
    OpKeepsRow(r, Record(r.attemptCount + 1, o, from, next), now);
  }

  lemma StartKeepsRow(r: Row, now: nat)
    requires RowInv(r)
    ensures var r' := ApplyOp(r, Start(r.status, r.attemptCount + 1), now);
            RowInv(r') && r'.attempts == r.attempts && r'.attemptCount == r.attemptCount
  {
    OpKeepsRow(r, Start(r.status, r.attemptCount + 1), now);
  }

  lemma DeliverKeepsRow(r: Row, o: Outcome, e: Env)
    requires RowInv(r)
    ensures var start := ApplyOp(r, Start(r.status, r.attemptCount + 1), e.now);
            var r' := ApplyOp(start, Record(r.attemptCount + 1, o, Delivering, e.next), e.done);
            && RowInv(r') && r'.attempts == r.attempts + [Attempt(r.attemptCount + 1, o)]
            && r'.attemptCount == r.attemptCount + 1 && r'.status == StatusOf(o)
  {
    StartKeepsRow(r, e.now);
    var r1 := ApplyOp(r, Start(r.status, r.attemptCount + 1), e.now);
    RecordKeepsRow(r1, o, Delivering, e.next, e.done);
  }

  lemma PickupKeepsRow(r: Row, e: Env)
    requires RowInv(r)
    ensures var r' := PickupRow(r, e);
            && RowInv(r')
            && (Defers(r, e) || Terminal(r.status) ==> r' == r)
            && (!Defers(r, e) && !Terminal(r.status) ==>
                  && r'.attempts == r.attempts + [Attempt(r.attemptCount + 1, OutcomeIn(e))]
                  && r'.attemptCount == r.attemptCount + 1 && r'.status == StatusOf(OutcomeIn(e)))
  {
    if e.verdict.Open? {
      RecordKeepsRow(r, OutcomeIn(e), r.status, e.next, e.done);
    } else {
      DeliverKeepsRow(r, OutcomeIn(e), e);
    }
  }

  /** What a job keeps: it has spent one attempt per counted pickup, and is over only with
      the delivery terminal. */
  ghost predicate JobInv(r: Row, j: JobRun, counted: nat, max: nat) {
    && RowInv(j.row)
    && r.attemptCount <= j.row.attemptCount <= r.attemptCount + counted
    && (if j.over then counted <= max && Terminal(j.row.status) else j.made == counted && counted < max)
  }

  lemma NextKeepsJob(r: Row, j: JobRun, counted: nat, e: Env, max: nat)
    requires JobInv(r, j, counted, max)
    ensures JobInv(r, NextJob(j, e, max), counted + (if j.over || Defers(j.row, e) then 0 else 1), max)
  {
    PickupKeepsRow(j.row, e);
    var r' := PickupRow(j.row, e);
    OpKeepsRow(r', Bury(r'.status), e.done);
  }

  /** After at most `max` counted pickups the delivery is DELIVERED or in the DLQ, and the
      job raised attempt_count by at most `max`, however many pickups were deferred. */
  lemma {:induction false} JobEndsWithinBudget(r: Row, es: seq<Env>, max: nat)
    requires RowInv(r) && max >= 1
    ensures var j, n := RunJob(JobRun(r, 0, false), es, max), Counted(JobRun(r, 0, false), es, max);
            && JobInv(r, j, n, max)
            && n <= max && j.row.attemptCount <= r.attemptCount + max
            && (n == max ==> Terminal(j.row.status))
  {
    if es != [] {
      JobEndsWithinBudget(r, es[..|es| - 1], max);
      var j, front := JobRun(r, 0, false), es[..|es| - 1];
      NextKeepsJob(r, RunJob(j, front, max), Counted(j, front, max), es[|es| - 1], max);
    }
  }

  // ----- the step system, one worker at a time -----

  /** The awaits of a solo pickup, to the report; those its path does not reach change
      nothing.  A lock that is lost expires before the heartbeat's tick. */
  function ReadRun(run: Run, w: nat, t: nat, e: Env): Run {
    Then(Then(run, Act(w, Acquire(t))), Act(w, Look(e.active)))
  }

  function AdmitRun(run: Run, w: nat, e: Env): Run {
    Then(Then(run, Act(w, Check(e.verdict))), Act(w, Take(e.taken)))
  }

  function LoseRun(run: Run, e: Env): Run {
    if e.lockLost then Then(run, Expire) else run
  }

  function WaitRun(run: Run, w: nat, e: Env): Run {
    Then(Then(LoseRun(run, e), Act(w, Beat)), Tick(e.done))
  }

  function CallRun(run: Run, w: nat, e: Env): Run {
    Then(WaitRun(Then(run, Act(w, StartWrite)), w, e), Act(w, Answer(e.http)))
  }

  function MiddleRun(run: Run, w: nat, e: Env): Run {
    Then(CallRun(AdmitRun(run, w, e), w, e), Act(w, RecordWrite(e.next)))
  }

  function SoloRun(run: Run, w: nat, t: nat, e: Env): Run {
    Then(Then(MiddleRun(ReadRun(run, w, t, e), w, e), Act(w, Unlock)), Act(w, Report(true)))
  }

  /** The state after the read. */
  function ReadState(s: State, w: nat, t: nat, e: Env): State
    requires w in s.workers
  {
    var k := s.workers[w];
    if e.acquired
    then Put(s, w, LookNext(s.row, k.(pc := Locked, token := t), e.active)).(lock := Some(t), issued := s.issued + {t})
    else Put(s, w, k.(pc := Exiting, exit := Deferred)).(issued := s.issued + {t})
  }

  lemma ReadPhase(c: Config, run: Run, s: State, w: nat, t: nat, e: Env)
    requires s == After(c, run) && At(s, w, Started) && t !in s.issued && e.acquired == s.lock.None?
    ensures After(c, ReadRun(run, w, t, e)) == ReadState(s, w, t, e)
  {
    var r1 := Then(run, Act(w, Acquire(t)));
    if e.acquired {
      AcquireStates(c, run, s, w, t);
      LookStates(c, r1, After(c, r1), w, e.active);
    } else {
      ContendStates(c, run, s, w, t);
      IdleStates(c, r1, After(c, r1), w, Look(e.active));
    }
  }

  lemma AdmitPhase(c: Config, run: Run, s: State, w: nat, e: Env)
    requires s == After(c, run) && At(s, w, Looked)
    ensures After(c, AdmitRun(run, w, e)) == Put(s, w, AdmitNext(s.workers[w], e))
  {
    CheckStates(c, run, s, w, e.verdict);
    var r1, s1 := Then(run, Act(w, Check(e.verdict))), After(c, Then(run, Act(w, Check(e.verdict))));
    if e.verdict.Open? {
      IdleStates(c, r1, s1, w, Take(e.taken));
    } else {
      TakeStates(c, r1, s1, w, e.taken);
    }
  }

  function AdmitNext(k: Worker, e: Env): Worker {
    if e.verdict.Open? then k.(pc := Tripped)
    else if e.taken then k.(pc := Admitted)
    else k.(pc := Leaving, exit := Deferred)
  }

  /** The lock and the clock after the wait. */
  function Waited(s: State, e: Env): State {
    s.(lock := if e.lockLost then None else s.lock, now := e.done)
  }

  lemma LoseStates(c: Config, run: Run, s: State, e: Env)
    requires s == After(c, run)
    ensures After(c, LoseRun(run, e)) == s.(lock := if e.lockLost then None else s.lock)
  {
  }

  lemma WaitStates(c: Config, run: Run, s: State, w: nat, e: Env)
    requires s == After(c, run) && At(s, w, Calling) && s.now <= e.done
    requires !s.workers[w].lockLost && s.lock == Some(s.workers[w].token)
    ensures After(c, WaitRun(run, w, e)) == Put(Waited(s, e), w, s.workers[w].(lockLost := e.lockLost))
  {
    LoseStates(c, run, s, e);
    var r1 := LoseRun(run, e);
    var s1 := After(c, r1);
    BeatStates(c, r1, s1, w);
    TickStates(c, Then(r1, Act(w, Beat)), After(c, Then(r1, Act(w, Beat))), e.done);
  }

  lemma WaitIdles(c: Config, run: Run, s: State, w: nat, e: Env)
    requires s == After(c, run) && (At(s, w, Leaving) || At(s, w, Exiting) || At(s, w, Tripped)) && s.now <= e.done
    ensures After(c, WaitRun(run, w, e)) == Waited(s, e)
  {
    LoseStates(c, run, s, e);
    var r1 := LoseRun(run, e);
    IdleStates(c, r1, After(c, r1), w, Beat);
    TickStates(c, Then(r1, Act(w, Beat)), After(c, r1), e.done);
  }

  lemma CallPhase(c: Config, run: Run, s: State, w: nat, e: Env)
    requires s == After(c, run) && At(s, w, Admitted) && s.lock == Some(s.workers[w].token) && s.now <= e.done
    ensures var k, s' := s.workers[w], After(c, CallRun(run, w, e));
            && At(s', w, Answered) && s' == Put(Waited(Dispatched(s, w), e), w, s'.workers[w])
            && s'.workers[w].job == k.job && s'.workers[w].token == k.token && s'.workers[w].n == k.n
            && s'.workers[w].outcome == OutcomeOf(e.lockLost, e.http)
  {
    StartStates(c, run, s, w);
    var r1, s1 := Then(run, Act(w, StartWrite)), Dispatched(s, w);
    WaitStates(c, r1, s1, w, e);
    AnswerStates(c, WaitRun(r1, w, e), After(c, WaitRun(r1, w, e)), w, e.http);
  }

  lemma CallIdles(c: Config, run: Run, s: State, w: nat, e: Env)
    requires s == After(c, run) && (At(s, w, Leaving) || At(s, w, Exiting) || At(s, w, Tripped)) && s.now <= e.done
    ensures After(c, CallRun(run, w, e)) == Waited(s, e)
  {
    IdleStates(c, run, s, w, StartWrite);
    var r1 := Then(run, Act(w, StartWrite));
    WaitIdles(c, r1, s, w, e);
    IdleStates(c, WaitRun(r1, w, e), Waited(s, e), w, Answer(e.http));
  }

  /** From `s`, worker `w` is through: the row and its exit are as given, and the lock, if
      it is still its own, is about to be released. */
  ghost predicate Through(s: State, s': State, w: nat, token: nat, row: Row, exit: Exit, done: nat)
    requires w in s.workers
  {
    && (At(s', w, Leaving) || (At(s', w, Exiting) && s'.lock != Some(token)))
    && s'.row == row && s'.now == done && s'.jobs == s.jobs && s'.workers == s.workers[w := s'.workers[w]]
    && s'.workers[w].job == s.workers[w].job && s'.workers[w].exit == exit
    && (At(s', w, Leaving) ==> s'.workers[w].token == token)
  }

  lemma MiddleIdles(c: Config, run: Run, s: State, w: nat, e: Env)
    requires s == After(c, run) && (At(s, w, Leaving) || At(s, w, Exiting)) && s.now <= e.done
    ensures After(c, MiddleRun(run, w, e)) == Waited(s, e)
  {
    IdleStates(c, run, s, w, Check(e.verdict));
    IdleStates(c, Then(run, Act(w, Check(e.verdict))), s, w, Take(e.taken));
    CallIdles(c, AdmitRun(run, w, e), s, w, e);
    IdleStates(c, CallRun(AdmitRun(run, w, e), w, e), Waited(s, e), w, RecordWrite(e.next));
  }

  /** A worker that read a non-terminal row of an active endpoint. */
  ghost predicate Reading(s: State, w: nat, e: Env) {
    && At(s, w, Looked) && s.workers[w].n == s.row.attemptCount + 1 && s.workers[w].from == s.row.status
    && !Terminal(s.row.status) && s.lock == Some(s.workers[w].token)
    && e.acquired && e.active && e.now == s.now && s.now <= e.done
  }

  lemma ThroughFrom(s: State, s1: State, s': State, w: nat, t: nat, row: Row, exit: Exit, done: nat)
    requires w in s.workers && w in s1.workers && s1.workers == s.workers[w := s1.workers[w]]
    requires s1.jobs == s.jobs && s1.workers[w].job == s.workers[w].job && Through(s1, s', w, t, row, exit, done)
    ensures Through(s, s', w, t, row, exit, done)
  {
  }

  lemma TrippedRecorded(c: Config, run: Run, s: State, w: nat, next: nat)
    requires s == After(c, run) && At(s, w, Tripped) && s.workers[w].n == s.row.attemptCount + 1
    ensures var k := s.workers[w];
            Through(s, After(c, Then(run, Act(w, RecordWrite(next)))), w, k.token,
                    ApplyOp(s.row, Record(k.n, CircuitOpen, k.from, next), s.now), ThrewRecorded, s.now)
  {
    Reachable(c, run);
    FreeIsNext(s.row, s.workers[w].n);
    RecordStates(c, run, s, w, next);
  }

  lemma AnswerRecorded(c: Config, run: Run, s: State, w: nat, next: nat)
    requires s == After(c, run) && At(s, w, Answered) && s.workers[w].n == s.row.attemptCount + 1
    ensures var k := s.workers[w];
            Through(s, After(c, Then(run, Act(w, RecordWrite(next)))), w, k.token,
                    ApplyOp(s.row, Record(k.n, k.outcome, Delivering, next), s.now),
                    if k.outcome.Success? then Returned else ThrewRecorded, s.now)
  {
    Reachable(c, run);
    FreeIsNext(s.row, s.workers[w].n);
    RecordStates(c, run, s, w, next);
  }

  lemma FromTripped(c: Config, run: Run, s: State, w: nat, e: Env)
    requires s == After(c, run) && At(s, w, Tripped) && s.workers[w].n == s.row.attemptCount + 1 && s.now <= e.done
    ensures var k := s.workers[w];
            Through(s, After(c, Then(CallRun(run, w, e), Act(w, RecordWrite(e.next)))), w, k.token,
                    ApplyOp(s.row, Record(k.n, CircuitOpen, k.from, e.next), e.done), ThrewRecorded, e.done)
  {
    CallIdles(c, run, s, w, e);
    TrippedRecorded(c, CallRun(run, w, e), Waited(s, e), w, e.next);
  }

  lemma FromAdmitted(c: Config, run: Run, s: State, w: nat, e: Env)
    requires s == After(c, run) && At(s, w, Admitted) && s.lock == Some(s.workers[w].token) && s.now <= e.done
    requires s.workers[w].n == s.row.attemptCount + 1
    ensures var k, o := s.workers[w], OutcomeOf(e.lockLost, e.http);
            Through(s, After(c, Then(CallRun(run, w, e), Act(w, RecordWrite(e.next)))), w, k.token,
                    ApplyOp(ApplyOp(s.row, Start(k.from, k.n), s.now), Record(k.n, o, Delivering, e.next), e.done),
                    if o.Success? then Returned else ThrewRecorded, e.done)
  {
    CallPhase(c, run, s, w, e);
    var d := CallRun(run, w, e);
    var s1 := After(c, d);
    AnswerRecorded(c, d, s1, w, e.next);
    var o := OutcomeOf(e.lockLost, e.http);
    ThroughFrom(s, s1, After(c, Then(d, Act(w, RecordWrite(e.next)))), w, s.workers[w].token,
                ApplyOp(s1.row, Record(s.workers[w].n, o, Delivering, e.next), e.done),
                if o.Success? then Returned else ThrewRecorded, e.done);
  }

  lemma FromDeferred(c: Config, run: Run, s: State, w: nat, e: Env)
    requires s == After(c, run) && At(s, w, Leaving) && s.now <= e.done
    ensures Through(s, After(c, Then(CallRun(run, w, e), Act(w, RecordWrite(e.next)))), w, s.workers[w].token,
                    s.row, s.workers[w].exit, e.done)
  {
    CallIdles(c, run, s, w, e);
    IdleStates(c, CallRun(run, w, e), Waited(s, e), w, RecordWrite(e.next));
    assert s.workers[w := s.workers[w]] == s.workers;
  }

  lemma MiddleStates(c: Config, run: Run, s: State, w: nat, e: Env)
    requires s == After(c, run) && Reading(s, w, e)
    ensures Through(s, After(c, MiddleRun(run, w, e)), w, s.workers[w].token, PickupRow(s.row, e),
                    PickupExit(s.row, e), e.done)
  {
    AdmitPhase(c, run, s, w, e);
    FromAdmission(c, AdmitRun(run, w, e), s, After(c, AdmitRun(run, w, e)), w, e);
  }

  lemma FromAdmission(c: Config, run: Run, s: State, s1: State, w: nat, e: Env)
    requires Reading(s, w, e) && s1 == After(c, run) && s1 == Put(s, w, AdmitNext(s.workers[w], e))
    ensures Through(s, After(c, Then(CallRun(run, w, e), Act(w, RecordWrite(e.next)))), w, s.workers[w].token,
                    PickupRow(s.row, e), PickupExit(s.row, e), e.done)
  {
    if e.verdict.Open? {
      FromTripped(c, run, s1, w, e);
    } else if e.taken {
      FromAdmitted(c, run, s1, w, e);
    } else {
      FromDeferred(c, run, s1, w, e);
    }
    ThroughFrom(s, s1, After(c, Then(CallRun(run, w, e), Act(w, RecordWrite(e.next)))), w, s.workers[w].token,
                PickupRow(s.row, e), PickupExit(s.row, e), e.done);
  }

  lemma IdlesThrough(c: Config, run: Run, s: State, w: nat, e: Env, t: nat)
    requires s == After(c, run) && s.now <= e.done
    requires (At(s, w, Leaving) && s.workers[w].token == t) || (At(s, w, Exiting) && s.lock != Some(t))
    ensures Through(s, After(c, MiddleRun(run, w, e)), w, t, s.row, s.workers[w].exit, e.done)
  {
    MiddleIdles(c, run, s, w, e);
    assert s.workers[w := s.workers[w]] == s.workers;
  }

  lemma FromRead(c: Config, run: Run, s: State, w: nat, t: nat, e: Env)
    requires w in s.workers && After(c, run) == ReadState(s, w, t, e) && s.lock != Some(t)
    requires e.now == s.now && s.now <= e.done
    ensures Through(s, After(c, MiddleRun(run, w, e)), w, t, PickupRow(s.row, e), PickupExit(s.row, e), e.done)
  {
    var s1 := ReadState(s, w, t, e);
    if At(s1, w, Looked) {
      MiddleStates(c, run, s1, w, e);
    } else {
      IdlesThrough(c, run, s1, w, e, t);
    }
    ThroughFrom(s, s1, After(c, MiddleRun(run, w, e)), w, t, PickupRow(s.row, e), PickupExit(s.row, e), e.done);
  }

  lemma SoloThrough(c: Config, run: Run, s: State, w: nat, t: nat, e: Env)
    requires s == After(c, run) && At(s, w, Started) && t !in s.issued && s.lock != Some(t)
    requires e.acquired == s.lock.None? && e.now == s.now && s.now <= e.done
    ensures Through(s, After(c, MiddleRun(ReadRun(run, w, t, e), w, e)), w, t, PickupRow(s.row, e),
                    PickupExit(s.row, e), e.done)
  {
    ReadPhase(c, run, s, w, t, e);
    FromRead(c, ReadRun(run, w, t, e), s, w, t, e);
  }

  lemma FinallyStates(c: Config, run: Run, s: State, w: nat, t: nat)
    requires s == After(c, run) && (At(s, w, Leaving) || (At(s, w, Exiting) && s.lock != Some(t)))
    requires At(s, w, Leaving) ==> s.workers[w].token == t
    ensures var s' := After(c, Then(run, Act(w, Unlock)));
            && s' == Put(s, w, s.workers[w].(pc := Exiting)).(lock := s'.lock) && s'.lock != Some(t)
  {
    if At(s, w, Leaving) {
      UnlockStates(c, run, s, w);
    } else {
      assert s.workers[w := s.workers[w]] == s.workers;
    }
  }

  /** What the queue keeps of the job. */
  function JobKept(j: JobRun, exit: Exit, stalls: nat): Protocol.Job {
    if j.over then Finished(!exit.Returned?, j.made) else Live(None, j.made, stalls)
  }

  lemma ReportReacts(c: Config, run: Run, s: State, w: nat)
    requires s == After(c, run) && At(s, w, Exiting) && Owns(s, s.workers[w].job, w)
    ensures var k, s' := s.workers[w], After(c, Then(run, Act(w, Report(true))));
            var job := s.jobs[k.job];
            var j := React(job.made, s.row, k.exit, c.maxAttempts, s.now);
            s' == s.(row := j.row, workers := s.workers - {w}, jobs := s.jobs[k.job := JobKept(j, k.exit, job.stalls)])
  {
  }

  lemma EndStates(c: Config, run: Run, s: State, s1: State, w: nat, t: nat, row: Row, exit: Exit, done: nat)
    requires w in s.workers && s1 == After(c, run) && Through(s, s1, w, t, row, exit, done)
    requires Owns(s, s.workers[w].job, w)
    ensures var id, s' := s.workers[w].job, After(c, Then(Then(run, Act(w, Unlock)), Act(w, Report(true))));
            var j := React(s.jobs[id].made, row, exit, c.maxAttempts, done);
            && s'.row == j.row && s'.workers == s.workers - {w} && s'.lock != Some(t) && s'.now == done
            && s'.jobs == s.jobs[id := JobKept(j, exit, s.jobs[id].stalls)]
  {
    FinallyStates(c, run, s1, w, t);
    var r2 := Then(run, Act(w, Unlock));
    var s2 := After(c, r2);
    ReportReacts(c, r2, s2, w);
    assert s2.workers - {w} == s.workers - {w};
  }

  /** A worker left alone in the step system, from its start to its report, whether or not
      it gets or keeps the lock, does to the row and to its job exactly what the by-cases
      account says, and leaves neither itself nor its token behind. */
  lemma SoloIsPickup(c: Config, run: Run, s: State, w: nat, t: nat, e: Env)
    requires s == After(c, run) && At(s, w, Started) && t !in s.issued
    requires Owns(s, s.workers[w].job, w)
    requires e.acquired == s.lock.None? && e.now == s.now && s.now <= e.done
    ensures var id, s' := s.workers[w].job, After(c, SoloRun(run, w, t, e));
            var job := s.jobs[id];
            var j := NextJob(JobRun(s.row, job.made, false), e, c.maxAttempts);
            && s'.row == j.row && s'.workers == s.workers - {w} && s'.lock != Some(t) && s'.now == e.done
            && s'.jobs == s.jobs[id := JobKept(j, PickupExit(s.row, e), job.stalls)]
  {
    var r1 := MiddleRun(ReadRun(run, w, t, e), w, e);
    Once.TokensReachable(c, run);
    SoloThrough(c, run, s, w, t, e);
    EndStates(c, r1, s, After(c, r1), w, t, PickupRow(s.row, e), PickupExit(s.row, e), e.done);
  }

  /** On a run: the lone worker leaves the delivery DELIVERED exactly when it was admitted
      and its call accepted, or the row was DELIVERED before. */
  lemma SoloDeliversIff(c: Config, run: Run, s: State, w: nat, t: nat, e: Env)
    requires s == After(c, run) && At(s, w, Started) && t !in s.issued
    requires Owns(s, s.workers[w].job, w)
    requires e.acquired == s.lock.None? && e.now == s.now && s.now <= e.done
    ensures After(c, SoloRun(run, w, t, e)).row.status == Delivered
            <==> s.row.status == Delivered
                 || (s.row.status != Dlq && s.lock == None && e.active && !e.verdict.Open? && e.taken && Accepted(e))
  {
    Reachable(c, run);
    SoloIsPickup(c, run, s, w, t, e);
    PickupKeepsRow(s.row, e);
    if e.acquired && e.active && !Terminal(s.row.status) {
      DeliveredIffAccepted(s.row, e);
    }
  }

  // ----- a whole job on a run of the step system -----

  /** One pickup of a job: what others do before it, the token it draws, what it meets. */
  datatype Turn = Turn(others: seq<Step>, token: nat, e: Env)

  function Extend(run: Run, steps: seq<Step>): Run {
    if steps == [] then run else Then(Extend(run, steps[..|steps| - 1]), steps[|steps| - 1])
  }

  /** Up to the start of a turn. */
  function TurnStart(run: Run, turn: Turn): Run {
    Extend(run, turn.others)
  }

  function TurnRun(run: Run, w: nat, id: JobId, turn: Turn): Run {
    SoloRun(Then(TurnStart(run, turn), Pickup(w, id)), w, turn.token, turn.e)
  }

  function Turns(run: Run, w: nat, id: JobId, ts: seq<Turn>): Run {
    if ts == [] then run else TurnRun(Turns(run, w, id, ts[..|ts| - 1]), w, id, ts[|ts| - 1])
  }

  function Envs(ts: seq<Turn>): seq<Env> {
    if ts == [] then [] else Envs(ts[..|ts| - 1]) + [ts[|ts| - 1].e]
  }

  /** Before the turn others may take or lose the lock, add jobs and let time pass, but leave
      the row, the job and `w` alone; the job is then handed out. */
  ghost predicate Clean(c: Config, run: Run, w: nat, id: JobId, turn: Turn) {
    var s, s', e := After(c, run), After(c, TurnStart(run, turn)), turn.e;
    && s'.row == s.row && id in s.jobs && id in s'.jobs && s'.jobs[id] == s.jobs[id]
    && s'.jobs[id].Live? && s'.jobs[id].owner == None && w !in s'.workers && turn.token !in s'.issued
    && e.acquired == s'.lock.None? && e.now == s'.now && s'.now <= e.done
  }

  ghost predicate AllClean(c: Config, run: Run, w: nat, id: JobId, ts: seq<Turn>) {
    ts != [] ==>
      var front := ts[..|ts| - 1];
      AllClean(c, run, w, id, front) && Clean(c, Turns(run, w, id, front), w, id, ts[|ts| - 1])
  }

  /** The state shows the job as the by-cases account has it. */
  ghost predicate Shows(s: State, id: JobId, j: JobRun, stalls: nat) {
    && s.row == j.row && id in s.jobs
    && (if j.over then s.jobs[id].Finished? && s.jobs[id].made == j.made else s.jobs[id] == Live(None, j.made, stalls))
  }

  lemma TurnShows(c: Config, run: Run, w: nat, id: JobId, turn: Turn, j: JobRun, stalls: nat)
    requires Clean(c, run, w, id, turn) && Shows(After(c, run), id, j, stalls)
    ensures Shows(After(c, TurnRun(run, w, id, turn)), id, NextJob(j, turn.e, c.maxAttempts), stalls)
  {
    var r1 := TurnStart(run, turn);
    var s1 := After(c, r1);
    PickupStates(c, r1, s1, w, id);
    var r2 := Then(r1, Pickup(w, id));
    SoloIsPickup(c, r2, After(c, r2), w, turn.token, turn.e);
  }

  lemma {:induction false} TurnsShow(c: Config, run: Run, w: nat, id: JobId, ts: seq<Turn>, j: JobRun, stalls: nat)
    requires AllClean(c, run, w, id, ts) && Shows(After(c, run), id, j, stalls)
    ensures Shows(After(c, Turns(run, w, id, ts)), id, RunJob(j, Envs(ts), c.maxAttempts), stalls)
  {
    if ts != [] {
      var front, turn := ts[..|ts| - 1], ts[|ts| - 1];
      TurnsShow(c, run, w, id, front, j, stalls);
      assert Envs(ts)[..|Envs(ts)| - 1] == Envs(front);
      TurnShows(c, Turns(run, w, id, front), w, id, turn, RunJob(j, Envs(front), c.maxAttempts), stalls);
    }
  }

  /** The budget on runs: a job picked up again and again, any of the pickups deferred, is
      over after at most `maxAttempts` counted ones; then the delivery is DELIVERED or in the
      DLQ, and the job has added at most that many attempts. */
  lemma RunEndsWithinBudget(c: Config, run: Run, s: State, w: nat, id: JobId, ts: seq<Turn>)
    requires s == After(c, run) && c.maxAttempts >= 1 && AllClean(c, run, w, id, ts)
    requires id in s.jobs && s.jobs[id].Live? && s.jobs[id].owner == None && s.jobs[id].made == 0
    ensures var s', n := After(c, Turns(run, w, id, ts)), Counted(JobRun(s.row, 0, false), Envs(ts), c.maxAttempts);
            && n <= c.maxAttempts && s'.row.attemptCount <= s.row.attemptCount + n
            && id in s'.jobs
            && (s'.jobs[id].Finished? ==> Terminal(s'.row.status))
            && (n == c.maxAttempts ==> s'.jobs[id].Finished?)
            && (s'.jobs[id].Live? ==> s'.jobs[id].made == n)
  {
    Reachable(c, run);
    JobEndsWithinBudget(s.row, Envs(ts), c.maxAttempts);
    TurnsShow(c, run, w, id, ts, JobRun(s.row, 0, false), s.jobs[id].stalls);
  }

  // ----- the breaker -----

  predicate RealFailure(o: Outcome) {
    o.HttpError? || o.Timeout? || o.ConnError?
  }

  /** The breaker's keys after `checkState`. */
  function KeysChecked(cfg: Breaker.Config, k: Breaker.Keys, e: Env): Breaker.Keys {
    if e.verdict.Probe? then Breaker.SetProbeNx(cfg, k, e.now) else k
  }

  /** The bookkeeping after a call: LOCK_LOST does not count as a failure, but a probe that
      ends in LOCK_LOST re-opens the breaker. */
  function KeysFed(cfg: Breaker.Config, k: Breaker.Keys, v: Verdict, o: Outcome, done: nat): Breaker.Keys {
    if v.Probe? then
      if o.Success? then k.(fails := None, probe := None) else Breaker.SetOpen(cfg, k, done).(probe := None)
    else if RealFailure(o) then Breaker.Recorded(cfg, k, done)
    else k
  }

  /** The breaker's keys after a pickup. */
  function KeysAfter(cfg: Breaker.Config, k: Breaker.Keys, r: Row, e: Env): Breaker.Keys {
    if !e.acquired || Terminal(r.status) || !e.active then k
    else if e.verdict.Open? || !e.taken then KeysChecked(cfg, k, e)
    else KeysFed(cfg, KeysChecked(cfg, k, e), e.verdict, OutcomeIn(e), e.done)
  }

  lemma LostLockReopensProbeOnly(cfg: Breaker.Config, k: Breaker.Keys, r: Row, e: Env)
    requires e.acquired && !Terminal(r.status) && e.active && e.taken && e.lockLost && cfg.open > 0
    ensures e.verdict.Probe? ==> Breaker.OpenLive(KeysAfter(cfg, k, r, e), e.done)
    ensures e.verdict.Closed? ==> KeysAfter(cfg, k, r, e) == k
  {
  }

  /** On a closed breaker the counter goes up by exactly the calls that were not accepted
      while the lock was kept; an accepted call and a lost lock leave the keys alone. */
  lemma FailuresAreCounted(cfg: Breaker.Config, k: Breaker.Keys, r: Row, e: Env)
    requires Checks(r, e) && e.verdict.Closed? && e.taken
    ensures var k' := KeysAfter(cfg, k, r, e);
            && (Accepted(e) || e.lockLost ==> k' == k)
            && (!Accepted(e) && !e.lockLost ==>
                  && k'.fails.Some? && k'.fails.value.expiresAt == Some(e.done + cfg.window)
                  && k'.fails.value.count == if Breaker.FailsLive(k, e.done) then k.fails.value.count + 1 else 1)
  {
  }

  /** A probe's result closes the breaker or re-opens it for the full time. */
  lemma ProbeDecides(cfg: Breaker.Config, k: Breaker.Keys, r: Row, e: Env)
    requires Checks(r, e) && e.verdict.Probe? && e.taken
    ensures var k' := KeysAfter(cfg, k, r, e);
            && k'.probe == None
            && (Accepted(e) ==> k'.fails == None && k'.open == k.open)
            && (!Accepted(e) ==> k'.fails == k.fails && k'.open == Some(e.done + cfg.open))
  {
  }

  // ----- infrastructure errors -----

  /** The awaits behind the lock, where the database, Redis or the queue may throw before
      the operation took effect. */
  datatype Await = AtRead | AtDefer | AtCheck | AtTake | AtStart | AtFeed | AtRecord | AtGiveBack | AtUnlock

  /** The pickup gets as far as the breaker, and then to the DELIVERING write. */
  predicate Checks(r: Row, e: Env) {
    e.acquired && !Terminal(r.status) && e.active
  }

  predicate Admits(r: Row, e: Env) {
    Checks(r, e) && !e.verdict.Open? && e.taken
  }

  /** The path of `e` comes to this await. */
  predicate Reaches(r: Row, e: Env, a: Await) {
    match a
    case AtRead => e.acquired
    case AtDefer => Defers(r, e)
    case AtCheck => Checks(r, e)
    case AtTake => Checks(r, e) && !e.verdict.Open?
    case AtStart => Admits(r, e)
    case AtFeed => Admits(r, e) && (e.verdict.Probe? || RealFailure(OutcomeIn(e)))
    case AtRecord => Checks(r, e) && (e.verdict.Open? || e.taken)
    case AtGiveBack => Admits(r, e)
    case AtUnlock => e.acquired
  }

  predicate Throws(r: Row, e: Env, fault: Option<Await>) {
    fault.Some? && Reaches(r, e, fault.value)
  }

  /** A throw between the DELIVERING write and the record leaves the row in DELIVERING; one
      in `finally` comes too late to matter to the row. */
  function RowAfter(r: Row, e: Env, fault: Option<Await>): Row {
    if !Throws(r, e, fault) || fault.value.AtGiveBack? || fault.value.AtUnlock? then PickupRow(r, e)
    else if Admits(r, e) && (fault.value.AtFeed? || fault.value.AtRecord?)
    then ApplyOp(r, Start(r.status, r.attemptCount + 1), e.now)
    else r
  }

  function ExitAfter(r: Row, e: Env, fault: Option<Await>): Exit {
    if Throws(r, e, fault) then ThrewOther else PickupExit(r, e)
  }

  function KeysOn(cfg: Breaker.Config, k: Breaker.Keys, r: Row, e: Env, fault: Option<Await>): Breaker.Keys {
    if !Throws(r, e, fault) then KeysAfter(cfg, k, r, e)
    else match fault.value
         case AtRead => k
         case AtCheck => k
         case AtTake => KeysChecked(cfg, k, e)
         case AtStart => KeysChecked(cfg, k, e)
         case AtFeed => KeysChecked(cfg, k, e)
         case _ => KeysAfter(cfg, k, r, e)
  }

  // ----- as code -----

  /** The facts a pickup does not decide itself. */
  datatype Input = Input(token: nat, ttl: nat, active: bool, http: HttpResult, beats: seq<Lease.Beat>, next: nat,
                         start: nat, done: nat, fault: Option<Await>)

  /** The bookkeeping, if any is due; `ok` is false when it throws. */
  method FeedBreaker(breaker: Breaker.CircuitBreaker, verdict: Verdict, outcome: Outcome, done: nat, throws: bool)
    returns (ok: bool)
    modifies breaker
    ensures ok <==> !(throws && (verdict.Probe? || RealFailure(outcome)))
    ensures breaker.keys == if ok then KeysFed(breaker.cfg, old(breaker.keys), verdict, outcome, done)
                            else old(breaker.keys)
  {
    ok := !(throws && (verdict.Probe? || RealFailure(outcome)));
    if ok {
      if verdict.Probe? {
        breaker.OnProbeResult(outcome.Success?, done);
      } else if RealFailure(outcome) {
        breaker.RecordFailure(done);
      }
    }
  }

  /** `recordAttempt` and the throw that follows a failed outcome. */
  method RecordOutcome(store: DeliveryStore, n: nat, outcome: Outcome, from: Status, next: nat, now: nat)
    returns (exit: Exit)
    modifies store
    ensures store.View() == ApplyOp(old(store.View()), Record(n, outcome, from, next), now)
    ensures exit == if !NumberFree(old(store.View()), n) then ThrewOther
                    else if outcome.Success? then Returned else ThrewRecorded
  {
    var committed := store.RecordAttempt(n, outcome, from, StatusOf(outcome), Result(outcome),
                                         if outcome.Success? then None else Some(next), now);
    exit := if !committed then ThrewOther else if outcome.Success? then Returned else ThrewRecorded;
  }

  /** The row and the exit of an admitted pickup, error by error. */
  lemma AdmittedCases(r: Row, e: Env, f: Option<Await>)
    requires Admits(r, e) && Numbered(r)
    ensures var n, o := r.attemptCount + 1, OutcomeIn(e);
            var started := ApplyOp(r, Start(r.status, n), e.now);
            && NumberFree(started, n)
            && (f == Some(AtStart) ==> RowAfter(r, e, f) == r && ExitAfter(r, e, f) == ThrewOther)
            && (Throws(r, e, f) && (f.value.AtFeed? || f.value.AtRecord?) ==>
                  RowAfter(r, e, f) == started && ExitAfter(r, e, f) == ThrewOther)
            && (!Throws(r, e, f) ==>
                  && RowAfter(r, e, f) == ApplyOp(started, Record(n, o, Delivering, e.next), e.done)
                  && ExitAfter(r, e, f) == if o.Success? then Returned else ThrewRecorded)
  {
  }

  /** The errors that fall between the admission and `finally`. */
  function InCall(fault: Option<Await>): Option<Await> {
    if fault.Some? && (fault.value.AtStart? || fault.value.AtFeed? || fault.value.AtRecord?) then fault else None
  }

  /** The admitted part: the DELIVERING write, the call under the heartbeat, breaker
      bookkeeping, the record. */
  method CallAndRecord(store: DeliveryStore, lock: Lease.RedisLock, breaker: Breaker.CircuitBreaker,
                       verdict: Verdict, input: Input) returns (exit: Exit, lockLost: bool)
    requires !verdict.Open? && !Terminal(store.status)
    modifies store, lock, breaker
    ensures input.fault != Some(AtStart) ==>
              (lockLost <==> Lease.LostDuring(old(lock.holder), input.token, input.beats, input.ttl))
    ensures var e := Env(true, true, verdict, true, lockLost, input.http, input.next, input.start, input.done);
            var r, f := old(store.View()), InCall(input.fault);
            && (Numbered(r) ==> store.View() == RowAfter(r, e, f) && exit == ExitAfter(r, e, f))
            && breaker.keys == if Throws(r, e, f) && !f.value.AtRecord? then old(breaker.keys)
                               else KeysFed(breaker.cfg, old(breaker.keys), verdict, OutcomeIn(e), input.done)
  {
    ghost var r := store.View();
    exit, lockLost := ThrewOther, false;
    if input.fault == Some(AtStart) {
      return;
    }
    var fromStatus, attemptNumber := store.status, store.attemptCount + 1;
    store.WriteTransition(fromStatus, Delivering, StartAttempt(attemptNumber), input.start);
    var executed;
    lockLost, executed := lock.Heartbeat(input.token, input.beats, input.ttl);
    var outcome := OutcomeOf(lockLost, input.http);
    if Numbered(r) {
      AdmittedCases(r, Env(true, true, verdict, true, lockLost, input.http, input.next, input.start, input.done),
                    InCall(input.fault));
    }
    var fed := FeedBreaker(breaker, verdict, outcome, input.done, input.fault == Some(AtFeed));
    if !fed || input.fault == Some(AtRecord) {
      return;
    }
    exit := RecordOutcome(store, attemptNumber, outcome, Delivering, input.next, input.done);
  }

  /** The errors that fall before `finally`. */
  function InTry(fault: Option<Await>): Option<Await> {
    if fault.Some? && (fault.value.AtGiveBack? || fault.value.AtUnlock?) then None else fault
  }

  /** The errors that fall after the breaker check. */
  function SinceCheck(fault: Option<Await>): Option<Await> {
    if fault.Some? && (fault.value.AtRead? || fault.value.AtCheck?) then None else InTry(fault)
  }

  /** From the breaker's verdict on: CIRCUIT_OPEN, the bucket, the call. */
  method AfterCheck(store: DeliveryStore, lock: Lease.RedisLock, breaker: Breaker.CircuitBreaker,
                    bucket: Bucket.TokenBucket, verdict: Verdict, input: Input) returns (exit: Exit, env: Env)
    requires !Terminal(store.status) && input.active
    modifies store, lock, breaker, bucket
    ensures env == Env(true, true, verdict, env.taken, env.lockLost, input.http, input.next, input.start, input.done)
    ensures var r, f := old(store.View()), SinceCheck(input.fault);
            && (Numbered(r) ==> store.View() == RowAfter(r, env, f) && exit == ExitAfter(r, env, f))
            && breaker.keys == if !env.taken || (Throws(r, env, f) && (f.value.AtStart? || f.value.AtFeed?))
                               then old(breaker.keys)
                               else KeysFed(breaker.cfg, old(breaker.keys), verdict, OutcomeIn(env), input.done)
    ensures !verdict.Open? && input.fault != Some(AtTake) ==>
              (env.taken <==> Bucket.Effective(old(bucket.tokens), bucket.max) > 0)
    ensures env.taken && input.fault != Some(AtStart) ==>
              (env.lockLost <==> Lease.LostDuring(old(lock.holder), input.token, input.beats, input.ttl))
    ensures env.taken ==> !verdict.Open? && input.fault != Some(AtTake)
    ensures if env.taken then bucket.tokens == Some(Bucket.Effective(old(bucket.tokens), bucket.max) - 1)
            else bucket.tokens == old(bucket.tokens)
  {
    env := Env(true, true, verdict, false, false, input.http, input.next, input.start, input.done);
    exit := ThrewOther;
    if verdict.Open? {
      if input.fault != Some(AtRecord) {
        FreeIfNumbered(store.View());
        exit := RecordOutcome(store, store.attemptCount + 1, CircuitOpen, store.status, input.next, input.done);
      }
      return;
    }
    if input.fault == Some(AtTake) {
      return;
    }
    var taken := bucket.TryAcquire();
    if !taken {
      exit := if input.fault == Some(AtDefer) then ThrewOther else Deferred;
      return;
    }
    var lockLost;
    exit, lockLost := CallAndRecord(store, lock, breaker, verdict, input);
    env := env.(taken := true, lockLost := lockLost);
  }

  /** The `try` block, under the lock: the row, the exit, the breaker, and whether a bucket
      token is to be given back. */
  method TryDelivery(store: DeliveryStore, lock: Lease.RedisLock, breaker: Breaker.CircuitBreaker,
                     bucket: Bucket.TokenBucket, input: Input) returns (exit: Exit, env: Env)
    modifies store, lock, breaker, bucket
    ensures env == Env(true, input.active, env.verdict, env.taken, env.lockLost, input.http, input.next, input.start,
                       input.done)
    ensures Numbered(old(store.View())) ==>
              && store.View() == RowAfter(old(store.View()), env, InTry(input.fault))
              && exit == ExitAfter(old(store.View()), env, InTry(input.fault))
    ensures breaker.keys == KeysOn(breaker.cfg, old(breaker.keys), old(store.View()), env, InTry(input.fault))
    ensures Checks(old(store.View()), env) && input.fault != Some(AtRead) && input.fault != Some(AtCheck) ==>
              && (env.verdict.Closed? <==> !Breaker.OpenLive(old(breaker.keys), input.start)
                                           && !Breaker.Tripped(breaker.cfg, old(breaker.keys), input.start))
              && (!env.verdict.Open? && input.fault != Some(AtTake) ==>
                    (env.taken <==> Bucket.Effective(old(bucket.tokens), bucket.max) > 0))
    ensures Admits(old(store.View()), env) && input.fault != Some(AtStart) ==>
              (env.lockLost <==> Lease.LostDuring(old(lock.holder), input.token, input.beats, input.ttl))
    ensures env.taken ==> Admits(old(store.View()), env)
    ensures if env.taken then bucket.tokens == Some(Bucket.Effective(old(bucket.tokens), bucket.max) - 1)
            else bucket.tokens == old(bucket.tokens)
  {
    env := Env(true, input.active, Closed, false, false, input.http, input.next, input.start, input.done);
    exit := ThrewOther;
    if input.fault == Some(AtRead) {
      return;
    }
    if store.status.Delivered? || store.status.Dlq? {
      exit := Returned;
      return;
    }
    if !input.active {
      exit := if input.fault == Some(AtDefer) then ThrewOther else Deferred;
      return;
    }
    if input.fault == Some(AtCheck) {
      return;
    }
    var verdict := breaker.CheckState(input.start);
    exit, env := AfterCheck(store, lock, breaker, bucket, verdict, input);
  }

  /** A throw that keeps `finally` from releasing the lock. */
  predicate KeepsLock(r: Row, e: Env, fault: Option<Await>) {
    Throws(r, e, fault) && (fault.value.AtGiveBack? || fault.value.AtUnlock?)
  }

  /** A pickup, with an error at any one await: the row and the breaker are as the by-cases
      account says, and bucket token and lock are given back on every exit unless giving
      them back is what failed. */
  method ProcessDelivery(store: DeliveryStore, lock: Lease.RedisLock, breaker: Breaker.CircuitBreaker,
                         bucket: Bucket.TokenBucket, input: Input) returns (exit: Exit, env: Env)
    modifies store, lock, breaker, bucket
    ensures env.acquired == Lease.Free(old(lock.holder), input.start)
    ensures env.active == input.active && env.http == input.http && env.next == input.next
    ensures env.now == input.start && env.done == input.done
    ensures Numbered(old(store.View())) ==>
              && store.View() == RowAfter(old(store.View()), env, input.fault)
              && exit == ExitAfter(old(store.View()), env, input.fault)
    ensures breaker.keys == KeysOn(breaker.cfg, old(breaker.keys), old(store.View()), env, input.fault)
    ensures RowInv(old(store.View())) && Admits(old(store.View()), env)
            && !Throws(old(store.View()), env, input.fault) ==>
              ShowsAnswer(env, store.View())
    ensures Checks(old(store.View()), env) && input.fault != Some(AtRead) && input.fault != Some(AtCheck) ==>
              && (env.verdict.Closed? <==> !Breaker.OpenLive(old(breaker.keys), input.start)
                                           && !Breaker.Tripped(breaker.cfg, old(breaker.keys), input.start))
              && (!env.verdict.Open? && input.fault != Some(AtTake) ==>
                    (env.taken <==> Bucket.Effective(old(bucket.tokens), bucket.max) > 0))
    ensures Admits(old(store.View()), env) && input.fault != Some(AtStart) ==>
              (env.lockLost <==> Lease.LostDuring(Some(Lease.Holder(input.token, input.start + input.ttl)), input.token,
                                                  input.beats, input.ttl))
    ensures Bucket.Effective(old(bucket.tokens), bucket.max) <= bucket.max ==>
              Bucket.Effective(bucket.tokens, bucket.max) == Bucket.Effective(old(bucket.tokens), bucket.max)
                - (if Throws(old(store.View()), env, input.fault) && input.fault == Some(AtGiveBack) then 1 else 0)
    ensures env.acquired && !KeepsLock(old(store.View()), env, input.fault) ==>
              !Lease.HeldBy(lock.holder, input.token, input.done)
    ensures !env.acquired ==> lock.holder == old(lock.holder)
  {
    ghost var r := store.View();
    env := Env(false, input.active, Closed, false, false, input.http, input.next, input.start, input.done);
    var acquired := lock.Acquire(input.token, input.start, input.ttl);
    if !acquired {
      exit := if input.fault == Some(AtDefer) then ThrewOther else Deferred;
      return;
    }
    exit, env := TryDelivery(store, lock, breaker, bucket, input);
    AnswerShown(r, env);
    if env.taken {
      if input.fault == Some(AtGiveBack) {
        exit := ThrewOther;
        return;
      }
      bucket.Release();
    }
    if input.fault == Some(AtUnlock) {
      exit := ThrewOther;
      return;
    }
    var _ := lock.Release(input.token, input.done);
  }

  lemma FreeIfNumbered(r: Row)
    ensures Numbered(r) ==> NumberFree(r, r.attemptCount + 1)
  {
  }

  /** The 'failed' listener: nothing while the job has budget left or the row is already in
      the DLQ, otherwise one DLQ transition from whatever the status is. */
  method HandleFailed(store: DeliveryStore, attemptsMade: nat, maxAttempts: nat, now: nat)
    modifies store
    ensures store.View() == if attemptsMade < maxAttempts || old(store.status).Dlq? then old(store.View())
                            else ApplyOp(old(store.View()), Bury(old(store.status)), now)
  {
    if attemptsMade < maxAttempts {
      return;
    }
    var status := store.status;
    if status.Dlq? {
      return;
    }
    store.WriteTransition(status, Dlq, Exhausted, now);
  }
}
