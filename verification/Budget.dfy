/** How many attempts the jobs of a delivery can pay for, on every run.

    A job handed out pays one attempt in advance; its worker carries it until it records,
    throws or is deferred, and a deferred worker brings it back.  Nothing else creates
    attempts, so added jobs and recovered stalls bound the attempt count, whatever crashes,
    wipes and lease losses the run contains. */
module Budget {
  import opened Rows
  import opened Protocol
  import Arith

  // ----- sums over maps -----

  ghost function Sum<K, V>(m: map<K, V>, f: V -> nat): nat
    decreases |m|
  {
    if m == map[] then 0 else
      var k :| k in m;
      f(m[k]) + Sum(m - {k}, f)
  }

  lemma {:induction false} SumAt<K, V>(m: map<K, V>, f: V -> nat, k: K)
    requires k in m
    ensures Sum(m, f) == f(m[k]) + Sum(m - {k}, f)
    decreases |m|
  {
    var first :| first in m && Sum(m, f) == f(m[first]) + Sum(m - {first}, f);
    if first != k {
      SumAt(m - {first}, f, k);
      SumAt(m - {k}, f, first);
      assert m - {first} - {k} == m - {k} - {first};
    }
  }

  lemma SumPut<K, V>(m: map<K, V>, f: V -> nat, k: K, v: V)
    ensures Sum(m[k := v], f) + (if k in m then f(m[k]) else 0) == Sum(m, f) + f(v)
  {
    SumAt(m[k := v], f, k);
    if k in m {
      SumAt(m, f, k);
      assert m[k := v] - {k} == m - {k};
    } else {
      assert m[k := v] - {k} == m;
    }
  }

  // ----- what jobs and workers hold -----

  /** The attempts of one job: at least one is made before the limit is looked at. */
  function Allowance(c: Config): nat {
    if c.maxAttempts == 0 then 1 else c.maxAttempts
  }

  /** A live job is within its limits. */
  predicate Sound(c: Config, job: Job) {
    job.Live? ==> job.made < Allowance(c) && job.stalls <= c.maxStalls
  }

  ghost predicate JobsSound(c: Config, s: State) {
    forall j | j in s.jobs :: Sound(c, s.jobs[j])
  }

  /** The attempts a job can still hand out. */
  function Credit(c: Config): Job -> nat {
    (job: Job) =>
      if job.Live? && job.made < Allowance(c)
      then Allowance(c) - job.made - (if job.owner.Some? then 1 else 0)
      else 0
  }

  /** The stalls a job can still recover from. */
  function StallsLeft(c: Config): Job -> nat {
    (job: Job) => if job.Live? && job.stalls <= c.maxStalls then c.maxStalls - job.stalls else 0
  }

  /** The worker may yet record an attempt, or hand it back by deferring. */
  predicate Carries(k: Worker) {
    || k.pc.Started? || k.pc.Locked? || InSection(k)
    || (k.exit.Deferred? && (k.pc.Leaving? || k.pc.Exiting?))
  }

  function Carried(): Worker -> nat {
    (k: Worker) => if Carries(k) then 1 else 0
  }

  /** Attempts recorded, carried and still to be handed out. */
  ghost function Spending(c: Config, s: State): nat {
    s.row.attemptCount + Sum(s.workers, Carried()) + Sum(s.jobs, Credit(c))
  }

  // ----- counting along a run -----

  /** The step added a job under a new id. */
  ghost predicate AddsJob(c: Config, s: State, step: Step) {
    !(Apply(c, s, step).jobs.Keys <= s.jobs.Keys)
  }

  /** The step put a stalled job back into the queue. */
  ghost predicate Requeues(c: Config, s: State, step: Step) {
    step.Stall? && Handed(s, step.j) && s.jobs[step.j].stalls < c.maxStalls
  }

  ghost function Adds(c: Config, run: Run): nat {
    if run.Commit? then 0 else
      Adds(c, run.before) + (if AddsJob(c, After(c, run.before), run.step) then 1 else 0)
  }

  ghost function Requeued(c: Config, run: Run): nat {
    if run.Commit? then 0 else
      Requeued(c, run.before) + (if Requeues(c, After(c, run.before), run.step) then 1 else 0)
  }

  // ----- one step -----

  function CarriedBy(k: Option<Worker>): nat {
    if k.Some? then Carried()(k.value) else 0
  }

  /** The move spends at most what the worker carried and its job had. */
  ghost predicate Affordable(c: Config, s: State, w: nat, m: Move)
    requires w in s.workers
  {
    var k := s.workers[w];
    && var recorded := ApplyOp(s.row, m.op, s.now).attemptCount - s.row.attemptCount;
       if m.job.None? then recorded + CarriedBy(m.next) <= Carried()(k)
       else
         && k.job in s.jobs && Sound(c, m.job.value)
         && recorded + CarriedBy(m.next) + Credit(c)(m.job.value) <= Carried()(k) + Credit(c)(s.jobs[k.job])
         && StallsLeft(c)(m.job.value) <= StallsLeft(c)(s.jobs[k.job])
  }

  lemma MoveAffordable(c: Config, s: State, w: nat, a: Action)
    requires w in s.workers && JobsSound(c, s)
    ensures Affordable(c, s, w, MoveOf(c, s, w, a))
  {
  }

  lemma PerformSums(c: Config, s: State, w: nat, m: Move)
    requires w in s.workers && (m.job.Some? ==> s.workers[w].job in s.jobs)
    ensures var s', k := Perform(s, w, m), s.workers[w];
            && s'.jobs.Keys == s.jobs.Keys
            && Sum(s'.workers, Carried()) + Carried()(k) == Sum(s.workers, Carried()) + CarriedBy(m.next)
            && (m.job.None? ==> s'.jobs == s.jobs)
            && (m.job.Some? ==>
                  && s'.jobs == s.jobs[k.job := m.job.value]
                  && Sum(s'.jobs, Credit(c)) + Credit(c)(s.jobs[k.job])
                     == Sum(s.jobs, Credit(c)) + Credit(c)(m.job.value)
                  && Sum(s'.jobs, StallsLeft(c)) + StallsLeft(c)(s.jobs[k.job])
                     == Sum(s.jobs, StallsLeft(c)) + StallsLeft(c)(m.job.value))
  {
    if m.next.Some? {
      SumPut(s.workers, Carried(), w, m.next.value);
    } else {
      SumAt(s.workers, Carried(), w);
    }
    if m.job.Some? {
      SumPut(s.jobs, Credit(c), s.workers[w].job, m.job.value);
      SumPut(s.jobs, StallsLeft(c), s.workers[w].job, m.job.value);
    }
  }

  /** The books balance: `added` new jobs and `requeued` recovered stalls pay for the step. */
  ghost predicate Balanced(c: Config, s: State, s': State, added: nat, requeued: nat) {
    && JobsSound(c, s')
    && Spending(c, s') <= Spending(c, s) + added * Allowance(c) + requeued
    && requeued + Sum(s'.jobs, StallsLeft(c)) <= Sum(s.jobs, StallsLeft(c)) + added * c.maxStalls
  }

  lemma PerformBalances(c: Config, s: State, s': State, w: nat, m: Move)
    requires w in s.workers && JobsSound(c, s) && Affordable(c, s, w, m)
    requires s' == Perform(s, w, m).(row := ApplyOp(s.row, m.op, s.now))
    ensures Balanced(c, s, s', 0, 0) && s'.jobs.Keys == s.jobs.Keys
  {
    PerformSums(c, s, w, m);
  }

  lemma ActBalances(c: Config, s: State, w: nat, a: Action)
    requires w in s.workers && JobsSound(c, s)
    ensures Balanced(c, s, Apply(c, s, Act(w, a)), 0, 0)
    ensures Apply(c, s, Act(w, a)).jobs.Keys == s.jobs.Keys
  {
    MoveAffordable(c, s, w, a);
    PerformBalances(c, s, Apply(c, s, Act(w, a)), w, MoveOf(c, s, w, a));
  }

  lemma AddBalances(c: Config, s: State, s': State, j: JobId)
    requires JobsSound(c, s) && s'.workers == s.workers && s'.row.attemptCount == s.row.attemptCount
    requires s'.jobs == AddJob(s.jobs, j)
    ensures Balanced(c, s, s', if j in s.jobs then 0 else 1, 0)
  {
    if j !in s.jobs {
      SumPut(s.jobs, Credit(c), j, Live(None, 0, 0));
      SumPut(s.jobs, StallsLeft(c), j, Live(None, 0, 0));
    }
  }

  lemma PickupBalances(c: Config, s: State, s': State, w: nat, j: JobId)
    requires JobsSound(c, s) && s'.row == s.row && w !in s.workers && j in s.jobs && s.jobs[j].Live?
    requires s.jobs[j].owner.None? && s'.workers == s.workers[w := Fresh(j)]
    requires s'.jobs == s.jobs[j := s.jobs[j].(owner := Some(w))]
    ensures Balanced(c, s, s', 0, 0)
  {
    SumPut(s.workers, Carried(), w, Fresh(j));
    SumPut(s.jobs, Credit(c), j, s.jobs[j].(owner := Some(w)));
    SumPut(s.jobs, StallsLeft(c), j, s.jobs[j].(owner := Some(w)));
  }

  lemma StallBalances(c: Config, s: State, s': State, j: JobId)
    requires JobsSound(c, s) && Handed(s, j) && s' == s.(jobs := s.jobs[j := StalledJob(c, s.jobs[j])])
    ensures Balanced(c, s, s', 0, if s.jobs[j].stalls < c.maxStalls then 1 else 0)
  {
    SumPut(s.jobs, Credit(c), j, StalledJob(c, s.jobs[j]));
    SumPut(s.jobs, StallsLeft(c), j, StalledJob(c, s.jobs[j]));
  }

  lemma DropBalances(c: Config, s: State, s': State, j: JobId)
    requires JobsSound(c, s) && j in s.jobs && s' == s.(jobs := s.jobs - {j})
    ensures Balanced(c, s, s', 0, 0)
  {
    SumAt(s.jobs, Credit(c), j);
    SumAt(s.jobs, StallsLeft(c), j);
  }

  lemma NotifyBalances(c: Config, s: State, s': State, w: nat, j: JobId)
    requires JobsSound(c, s) && w !in s.workers && s' == s.(workers := s.workers[w := Fresh(j).(pc := Notified)])
    ensures Balanced(c, s, s', 0, 0)
  {
    SumPut(s.workers, Carried(), w, Fresh(j).(pc := Notified));
  }

  /** The steps of the API and the reconciler. */
  lemma ApiBalances(c: Config, s: State, step: Step)
    requires JobsSound(c, s)
    requires step.EnqueueAdd? || step.EnqueueFlag? || step.Sweep? || step.RetryCall? || step.RetryAdd?
    ensures Balanced(c, s, Apply(c, s, step), if AddsJob(c, s, step) then 1 else 0, 0)
  {
    var s' := Apply(c, s, step);
    match step
    case EnqueueAdd => AddBalances(c, s, s', Original);
    case Sweep =>
      if Eligible(s.row, s.now, c.grace) {
        AddBalances(c, s, s', Original);
      }
    case RetryCall(add) =>
      if s.row.status.Dlq? && add.Some? {
        AddBalances(c, s, s', RetryId(add.value));
      }
    case RetryAdd(ms) => AddBalances(c, s, s', RetryId(ms));
    case _ =>
  }

  /** The steps of the queue and of Redis. */
  lemma QueueBalances(c: Config, s: State, step: Step)
    requires JobsSound(c, s)
    requires || step.Tick? || step.Expire? || step.Wipe? || step.Forget? || step.Stall? || step.Pickup?
             || step.DuplicateFailed?
    ensures Balanced(c, s, Apply(c, s, step), 0, if Requeues(c, s, step) then 1 else 0)
    ensures !AddsJob(c, s, step)
  {
    var s' := Apply(c, s, step);
    match step
    case Pickup(w, j) =>
      if w !in s.workers && j in s.jobs && s.jobs[j].Live? && s.jobs[j].owner.None? {
        PickupBalances(c, s, s', w, j);
      }
    case Stall(j) =>
      if Handed(s, j) {
        StallBalances(c, s, s', j);
      }
    case Forget(j) =>
      if j in s.jobs && s.jobs[j].Finished? && !s.jobs[j].failed {
        DropBalances(c, s, s', j);
      }
    case DuplicateFailed(w, j) =>
      if w !in s.workers && OutOfAttempts(c, s, j) {
        NotifyBalances(c, s, s', w, j);
      }
    case _ =>
  }

  lemma StepBalances(c: Config, s: State, step: Step)
    requires JobsSound(c, s)
    ensures Balanced(c, s, Apply(c, s, step),
                     if AddsJob(c, s, step) then 1 else 0, if Requeues(c, s, step) then 1 else 0)
  {
    if step.Act? {
      if step.w in s.workers {
        ActBalances(c, s, step.w, step.a);
      }
    } else if step.EnqueueAdd? || step.EnqueueFlag? || step.Sweep? || step.RetryCall? || step.RetryAdd? {
      ApiBalances(c, s, step);
    } else {
      QueueBalances(c, s, step);
    }
  }

  // ----- every run -----

  lemma {:induction false} BooksReachable(c: Config, run: Run)
    ensures var s := After(c, run);
            && JobsSound(c, s)
            && Spending(c, s) <= Adds(c, run) * Allowance(c) + Requeued(c, run)
            && Requeued(c, run) + Sum(s.jobs, StallsLeft(c)) <= Adds(c, run) * c.maxStalls
  {
    if run.Then? {
      BooksReachable(c, run.before);
      var s := After(c, run.before);
      StepBalances(c, s, run.step);
      if AddsJob(c, s, run.step) {
        Arith.OneMore(Adds(c, run), Allowance(c));
        Arith.OneMore(Adds(c, run), c.maxStalls);
      }
    }
  }

  /** On every run the attempts recorded number at most one allowance per added job plus one
      per recovered stall, and a job recovers from at most `maxStalls` of those. */
  lemma AttemptsWithinBudget(c: Config, run: Run)
    ensures After(c, run).row.attemptCount <= Adds(c, run) * Allowance(c) + Requeued(c, run)
    ensures c.maxAttempts >= 1 ==>
              After(c, run).row.attemptCount <= Adds(c, run) * c.maxAttempts + Requeued(c, run)
    ensures Requeued(c, run) <= Adds(c, run) * c.maxStalls
  {
    BooksReachable(c, run);
  }

  /** Once the budget is used up nothing is carried and no job waits to be picked up. */
  lemma UsedUpMeansIdle(c: Config, run: Run, w: nat, j: JobId)
    requires After(c, run).row.attemptCount == Adds(c, run) * Allowance(c) + Requeued(c, run)
    ensures var s := After(c, run);
            && (w in s.workers ==> !Carries(s.workers[w]))
            && (j in s.jobs && s.jobs[j].Live? ==> s.jobs[j].owner.Some? && s.jobs[j].made + 1 == Allowance(c))
  {
    BooksReachable(c, run);
    var s := After(c, run);
    if w in s.workers {
      SumAt(s.workers, Carried(), w);
    }
    if j in s.jobs {
      SumAt(s.jobs, Credit(c), j);
    }
  }
}
