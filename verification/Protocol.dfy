/** The delivery protocol as a step system for one delivery.

    Any number of workers, the API, the reconciler and the DLQ handler share the row, the
    Redis lock and the job queue.  One step is one `await`.  A run is ANY sequence of
    steps after the ingest commit: a step that is not enabled changes nothing, so a
    statement about all step sequences is a statement about all interleavings, including
    lease loss, crashes, stalls and Redis wipes. */
module Protocol {
  import opened Rows

  /** `maxAttempts` is BACKOFF_BASE_MS.length, `maxStalls` is maxStalledCount, `grace` is
      RECONCILER_GRACE_SECONDS. */
  datatype Config = Config(maxAttempts: nat, maxStalls: nat, grace: nat, createdAt: nat)

  // ----- the job queue -----

  /** The delivery's own id, or `{id}:retry:{ms}`. */
  datatype JobId = Original | RetryId(ms: nat)

  /** A live job counts its attempts and its stalls; its owner is the worker it was handed
      to, if any.  A finished job is retained under its id. */
  datatype Job = Live(owner: Option<nat>, made: nat, stalls: nat) | Finished(failed: bool, made: nat)

  /** `queue.add` with an id still present is a no-op. */
  function AddJob(jobs: map<JobId, Job>, j: JobId): map<JobId, Job> {
    if j in jobs then jobs else jobs[j := Live(None, 0, 0)]
  }

  // ----- workers -----

  /** Where a worker stands: `processDelivery` up to Exiting, then the DLQ handler. */
  datatype Pc =
    | Started    // has a job, about to SET NX the lock
    | Locked     // about to read the delivery
    | Looked     // non-terminal, endpoint active: about to check the breaker
    | Tripped    // breaker open: about to record CIRCUIT_OPEN
    | Passed     // about to take a bucket token
    | Admitted   // about to write DELIVERING
    | Calling    // HTTP in flight under the heartbeat
    | Answered   // outcome known, about to record it
    | Leaving    // in `finally`, about to release the lock
    | Exiting    // about to report the exit to the queue
    | Notified   // exhausted 'failed' event: handler about to read the status
    | Burying    // handler about to write DLQ

  datatype Exit = Returned | Deferred | ThrewRecorded | ThrewOther

  /** The locals.  `n` is the attempt number, `from` the status read, `seen` the length of
      the transition log when this worker last read or wrote it. */
  datatype Worker = Worker(pc: Pc, job: JobId, token: nat, n: nat, from: Status, seen: nat,
                           outcome: Outcome, lockLost: bool, exit: Exit)

  function Fresh(j: JobId): Worker {
    Worker(Started, j, 0, 0, Pending, 0, Success, false, Returned)
  }

  /** The worker carries an attempt number it may still record. */
  predicate InSection(k: Worker) {
    k.pc.Looked? || k.pc.Tripped? || k.pc.Passed? || k.pc.Admitted? || k.pc.Calling? || k.pc.Answered?
  }

  /** The worker has written DELIVERING and not yet recorded the result. */
  predicate InFlight(k: Worker) {
    k.pc.Calling? || k.pc.Answered?
  }

  datatype HttpResult = HttpStatus(code: nat) | TimedOut | ConnFailed

  /** A lost lock overrides whatever the call returned. */
  function OutcomeOf(lockLost: bool, http: HttpResult): Outcome {
    if lockLost then LockLost else
      match http
      case HttpStatus(code) => if 200 <= code < 300 then Success else HttpError
      case TimedOut => Timeout
      case ConnFailed => ConnError
  }

  datatype Verdict = Closed | Open | Probe

  datatype State = State(row: Row, lock: Option<nat>, issued: set<nat>, jobs: map<JobId, Job>,
                         workers: map<nat, Worker>, now: nat)

  datatype Step =
    // environment
    | Tick(to: nat)
    | Expire
    | Wipe
    | Forget(j: JobId)
    | Stall(j: JobId)
    // API and reconciler
    | EnqueueAdd
    | EnqueueFlag
    | Sweep
    | RetryCall(add: Option<nat>)
    | RetryAdd(ms: nat)
    // workers
    | Pickup(w: nat, j: JobId)
    | DuplicateFailed(w: nat, j: JobId)
    | Act(w: nat, a: Action)

  /** One `await` of a running worker, of the queue's reaction to it, or of the handler. */
  datatype Action =
    | Acquire(token: nat)
    | Look(active: bool)
    | Check(verdict: Verdict)
    | Take(ok: bool)
    | StartWrite
    | Beat
    | Answer(http: HttpResult)
    | RecordWrite(next: nat)
    | Unlock
    | Report(atomic: bool)
    | HandlerRead
    | HandlerWrite
    | Fail
    | Crash

  // ----- what a worker's action does -----

  /** The transaction it commits, its next locals (none when it is gone), the lock and the
      tokens drawn, and the new value of its job, if that changes. */
  datatype Move = Move(op: Op, next: Option<Worker>, lock: Option<nat>, issued: set<nat>, job: Option<Job>)

  function Stay(s: State, k: Worker): Move {
    Move(Noop, Some(k), s.lock, s.issued, None)
  }

  function MoveOf(c: Config, s: State, w: nat, a: Action): Move
    requires w in s.workers
  {
    var k := s.workers[w];
    match a
    case Acquire(t) => if k.pc.Started? && t !in s.issued then AcquireMove(s, k, t) else Stay(s, k)
    case Look(active) => if k.pc.Locked? then Stay(s, LookNext(s.row, k, active)) else Stay(s, k)
    case Check(v) => if k.pc.Looked? then Stay(s, k.(pc := if v.Open? then Tripped else Passed)) else Stay(s, k)
    case Take(ok) =>
      if !k.pc.Passed? then Stay(s, k)
      else if ok then Stay(s, k.(pc := Admitted))
      else Stay(s, k.(pc := Leaving, exit := Deferred))
    case StartWrite =>
      if k.pc.Admitted?
      then Stay(s, k.(pc := Calling, lockLost := false, seen := |s.row.transitions| + 1)).(op := Start(k.from, k.n))
      else Stay(s, k)
    case Beat =>
      if k.pc.Calling? then Stay(s, k.(lockLost := k.lockLost || s.lock != Some(k.token))) else Stay(s, k)
    case Answer(http) =>
      if k.pc.Calling? then Stay(s, k.(pc := Answered, outcome := OutcomeOf(k.lockLost, http))) else Stay(s, k)
    case RecordWrite(next) => if k.pc.Tripped? || k.pc.Answered? then RecordMove(s, k, next) else Stay(s, k)
    case Unlock =>
      if k.pc.Leaving?
      then Stay(s, k.(pc := Exiting)).(lock := if s.lock == Some(k.token) then None else s.lock)
      else Stay(s, k)
    case Report(atomic) => if k.pc.Exiting? then ReportMove(c, s, k, w, atomic) else Stay(s, k)
    case HandlerRead =>
      if !k.pc.Notified? then Stay(s, k)
      else if s.row.status.Dlq? then Stay(s, k).(next := None)
      else Stay(s, k.(pc := Burying, from := s.row.status))
    case HandlerWrite => if k.pc.Burying? then Stay(s, k).(next := None, op := Bury(k.from)) else Stay(s, k)
    case Fail => FailMove(s, k)
    case Crash => Stay(s, k).(next := None)
  }

  /** SET NX with a random token; contention defers the job. */
  function AcquireMove(s: State, k: Worker, t: nat): Move {
    if s.lock.None?
    then Move(Noop, Some(k.(pc := Locked, token := t)), Some(t), s.issued + {t}, None)
    else Move(Noop, Some(k.(pc := Exiting, exit := Deferred)), s.lock, s.issued + {t}, None)
  }

  /** `getForDelivery` after the lock: terminal rows return, inactive endpoints defer. */
  function LookNext(r: Row, k: Worker, active: bool): Worker {
    if Terminal(r.status) then k.(pc := Leaving, exit := Returned)
    else if !active then k.(pc := Leaving, exit := Deferred)
    else k.(pc := Looked, n := r.attemptCount + 1, from := r.status, seen := |r.transitions|)
  }

  /** The record transaction of either path; a unique violation throws. */
  function RecordMove(s: State, k: Worker, next: nat): Move {
    var o := if k.pc.Tripped? then CircuitOpen else k.outcome;
    var from := if k.pc.Tripped? then k.from else Delivering;
    var k' :=
      if !NumberFree(s.row, k.n) then k.(pc := Leaving, exit := ThrewOther)
      else k.(pc := Leaving, exit := if o.Success? then Returned else ThrewRecorded, seen := |s.row.transitions| + 1);
    Stay(s, k').(op := Record(k.n, o, from, next))
  }

  /** An infrastructure error at any await: `finally` still runs unless it is what failed. */
  function FailMove(s: State, k: Worker): Move {
    if k.pc.Started? || k.pc.Leaving? then Stay(s, k.(pc := Exiting, exit := ThrewOther))
    else if k.pc.Locked? || InSection(k) then Stay(s, k.(pc := Leaving, exit := ThrewOther))
    else if k.pc.Notified? || k.pc.Burying? then Stay(s, k).(next := None)
    else Stay(s, k)
  }

  predicate Owns(s: State, j: JobId, w: nat) {
    j in s.jobs && s.jobs[j].Live? && s.jobs[j].owner == Some(w)
  }

  /** Only the current owner's report counts.  A Delayed throw consumes no attempt, any
      other throw one; the last one fails the job and notifies the DLQ handler, which with
      `atomic` runs before anyone else. */
  function ReportMove(c: Config, s: State, k: Worker, w: nat, atomic: bool): Move {
    var gone := Stay(s, k).(next := None);
    if !Owns(s, k.job, w) then gone
    else
      var made, stalls := s.jobs[k.job].made, s.jobs[k.job].stalls;
      if k.exit.Returned? then gone.(job := Some(Finished(false, made)))
      else if k.exit.Deferred? then gone.(job := Some(Live(None, made, stalls)))
      else if made + 1 < c.maxAttempts then gone.(job := Some(Live(None, made + 1, stalls)))
      else if atomic
      then gone.(job := Some(Finished(true, made + 1)), op := if s.row.status.Dlq? then Noop else Bury(s.row.status))
      else Stay(s, k.(pc := Notified)).(job := Some(Finished(true, made + 1)))
  }

  // ----- runs -----

  /** The transaction a step commits. */
  function OpOf(c: Config, s: State, step: Step): Op {
    match step
    case EnqueueFlag => Flag
    case Sweep => if Eligible(s.row, s.now, c.grace) then Flag else Noop
    case RetryCall(_) => Retry
    case Act(w, a) => if w in s.workers then MoveOf(c, s, w, a).op else Noop
    case _ => Noop
  }

  /** Only a job handed to a worker can stall. */
  predicate Handed(s: State, j: JobId) {
    j in s.jobs && s.jobs[j].Live? && s.jobs[j].owner.Some?
  }

  /** A stalled job goes back to the queue, up to `maxStalls` times; then it fails with its
      attempts unspent, which the handler ignores. */
  function StalledJob(c: Config, job: Job): Job
    requires job.Live?
  {
    if job.stalls < c.maxStalls then Live(None, job.made, job.stalls + 1) else Finished(true, job.made)
  }

  /** The handler acts on a 'failed' event only for a job out of attempts. */
  predicate OutOfAttempts(c: Config, s: State, j: JobId) {
    j in s.jobs && s.jobs[j].Finished? && s.jobs[j].failed && s.jobs[j].made >= c.maxAttempts
  }

  /** A step's effect on everything but the row. */
  function Coordinate(c: Config, s: State, step: Step): State {
    match step
    case Tick(to) => if to >= s.now then s.(now := to) else s
    case Expire => s.(lock := None)
    case Wipe => s.(lock := None, jobs := map[])
    case Forget(j) =>
      if j in s.jobs && s.jobs[j].Finished? && !s.jobs[j].failed then s.(jobs := s.jobs - {j}) else s
    case Stall(j) => if Handed(s, j) then s.(jobs := s.jobs[j := StalledJob(c, s.jobs[j])]) else s
    case EnqueueAdd => s.(jobs := AddJob(s.jobs, Original))
    case EnqueueFlag => s
    case Sweep => if Eligible(s.row, s.now, c.grace) then s.(jobs := AddJob(s.jobs, Original)) else s
    case RetryCall(add) =>
      if s.row.status.Dlq? && add.Some? then s.(jobs := AddJob(s.jobs, RetryId(add.value))) else s
    case RetryAdd(ms) => s.(jobs := AddJob(s.jobs, RetryId(ms)))
    case Pickup(w, j) =>
      if w !in s.workers && j in s.jobs && s.jobs[j].Live? && s.jobs[j].owner.None?
      then s.(workers := s.workers[w := Fresh(j)], jobs := s.jobs[j := s.jobs[j].(owner := Some(w))]) else s
    case DuplicateFailed(w, j) =>
      if w !in s.workers && OutOfAttempts(c, s, j) then s.(workers := s.workers[w := Fresh(j).(pc := Notified)]) else s
    case Act(w, a) => if w in s.workers then Perform(s, w, MoveOf(c, s, w, a)) else s
  }

  function Perform(s: State, w: nat, m: Move): State
    requires w in s.workers
  {
    s.(lock := m.lock, issued := m.issued,
       jobs := if m.job.Some? then s.jobs[s.workers[w].job := m.job.value] else s.jobs,
       workers := if m.next.Some? then s.workers[w := m.next.value] else s.workers - {w})
  }

  function Apply(c: Config, s: State, step: Step): State {
    Coordinate(c, s, step).(row := ApplyOp(s.row, OpOf(c, s, step), s.now))
  }

  /** The ingest commit followed by any steps whatever. */
  datatype Run = Commit | Then(before: Run, step: Step)

  /** The state the ingest transaction commits. */
  function Init(c: Config): State {
    State(NewRow(c.createdAt), None, {}, map[], map[], c.createdAt)
  }

  function After(c: Config, run: Run): State {
    match run
    case Commit => Init(c)
    case Then(before, step) => Apply(c, After(c, before), step)
  }

  /** `longer` continues `run`. */
  ghost predicate Extends(longer: Run, run: Run) {
    longer == run || (longer.Then? && Extends(longer.before, run))
  }

  // ----- summaries of one step, for the proofs -----

  predicate HasToken(k: Worker) {
    k.pc.Locked? || InSection(k) || k.pc.Leaving?
  }

  predicate At(s: State, w: nat, pc: Pc) {
    w in s.workers && s.workers[w].pc == pc
  }

  /** What any action leaves of a worker's section, token and number. */
  lemma MoveKeeps(c: Config, s: State, w: nat, a: Action)
    requires w in s.workers
    ensures var k, m := s.workers[w], MoveOf(c, s, w, a);
            && s.issued <= m.issued
            && (m.lock == s.lock || m.lock == None
                || (a.Acquire? && k.pc.Started? && a.token !in s.issued && m.lock == Some(a.token)
                    && a.token in m.issued))
            && (m.next.Some? ==>
                  var k' := m.next.value;
                  && k'.job == k.job
                  && (InSection(k') ==>
                        || (InSection(k) && k'.n == k.n && k'.from == k.from && k'.token == k.token)
                        || (a.Look? && k.pc.Locked? && !Terminal(s.row.status) && k'.n == s.row.attemptCount + 1
                            && k'.from == s.row.status && k'.token == k.token && m.lock == s.lock))
                  && (InFlight(k') ==> InFlight(k) || m.op == Start(k'.from, k'.n))
                  && (HasToken(k') ==>
                        || (HasToken(k) && k'.token == k.token)
                        || (a.Acquire? && k.pc.Started? && a.token !in s.issued && k'.token == a.token
                            && k'.pc.Locked? && a.token in m.issued)))
  {
  }

  /** Which action issues which transaction. */
  lemma MoveOp(c: Config, s: State, w: nat, a: Action)
    requires w in s.workers
    ensures var k, op := s.workers[w], MoveOf(c, s, w, a).op;
            && (op.Start? ==> a.StartWrite? && k.pc.Admitted? && op == Start(k.from, k.n))
            && (op.Record? ==>
                  a.RecordWrite? && op.n == k.n && InSection(k)
                  && (|| (k.pc.Tripped? && op.outcome.CircuitOpen? && op.from == k.from)
                      || (k.pc.Answered? && op.outcome == k.outcome && op.from == Delivering)))
            && (op.Bury? ==>
                  || (a.HandlerWrite? && k.pc.Burying? && op.from == k.from)
                  || (a.Report? && a.atomic && k.pc.Exiting? && op.from == s.row.status && s.row.status != Dlq
                      && (k.exit.ThrewRecorded? || k.exit.ThrewOther?)))
            && !op.Retry? && !op.Flag?
  {
  }

  /** A worker present after a step was there before, moved by its own action or not at
      all, or has just been created outside its section. */
  lemma WorkerOrigin(c: Config, s: State, step: Step, w: nat)
    requires w in Apply(c, s, step).workers
    ensures var k' := Apply(c, s, step).workers[w];
            || (w in s.workers && k' == s.workers[w] && !(step.Act? && step.w == w))
            || (w in s.workers && step.Act? && step.w == w && MoveOf(c, s, w, step.a).next == Some(k'))
            || (w !in s.workers && !step.Act? && (k'.pc.Started? || k'.pc.Notified?))
  {
  }
}
