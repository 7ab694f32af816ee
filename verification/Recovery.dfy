/** No accepted delivery is lost from sight.

    A DELIVERING row is invisible to the reconciler, so it needs a worker; a PENDING or
    FAILED row needs a live job or a free job id under which the reconciler can add one. */
module Recovery {
  import opened Rows
  import opened Protocol
  import opened Fencing

  // ----- who will move a DELIVERING row -----

  /** A worker in flight with the next number: its record transaction cannot abort. */
  ghost predicate HasSettler(s: State) {
    exists w :: w in s.workers && InFlight(s.workers[w]) && s.workers[w].n == s.row.attemptCount + 1
  }

  /** Worker `step.w` dies, or loses its database or Redis, at this step. */
  predicate Dies(s: State, step: Step) {
    step.Act? && step.w in s.workers && (step.a.Crash? || step.a.Fail?)
  }

  /** No worker dies between its DELIVERING write and its record; elsewhere they may. */
  ghost predicate CallsComplete(c: Config, run: Run) {
    run.Then? ==>
      var s := After(c, run.before);
      CallsComplete(c, run.before) && (Dies(s, run.step) ==> !InFlight(s.workers[run.step.w]))
  }

  ghost predicate Backed(s: State) {
    HasStart(s.row, s.row.attemptCount + 1) ==> HasSettler(s)
  }

  /** A settler stays in flight until it records, and then the count moves on. */
  lemma SettlerStays(c: Config, s: State, step: Step, w: nat)
    requires Inv(s) && w in s.workers && InFlight(s.workers[w]) && s.workers[w].n == s.row.attemptCount + 1
    requires Dies(s, step) ==> !InFlight(s.workers[step.w])
    ensures var s' := Apply(c, s, step);
            || s'.row.attemptCount == s.row.attemptCount + 1
            || (w in s'.workers && InFlight(s'.workers[w]) && s'.workers[w].n == s.workers[w].n)
  {
    FreeIsNext(s.row, s.workers[w].n);
  }

  lemma StartedBy(c: Config, s: State, step: Step)
    requires OpOf(c, s, step).Start?
    ensures var n := OpOf(c, s, step).n;
            step.w in Apply(c, s, step).workers
            && InFlight(Apply(c, s, step).workers[step.w]) && Apply(c, s, step).workers[step.w].n == n
  {
    MoveOp(c, s, step.w, step.a);
  }

  lemma SettlerLeft(c: Config, s: State, step: Step)
    requires Inv(s) && HasSettler(s) && (Dies(s, step) ==> !InFlight(s.workers[step.w]))
    requires Apply(c, s, step).row.attemptCount == s.row.attemptCount
    ensures HasSettler(Apply(c, s, step))
  {
    var w :| w in s.workers && InFlight(s.workers[w]) && s.workers[w].n == s.row.attemptCount + 1;
    SettlerStays(c, s, step, w);
  }

  /** A start row in the new log was in the old one, or is this step's. */
  lemma StartOrigin(r: Row, op: Op, now: nat, n: nat)
    requires HasStart(ApplyOp(r, op, now), n)
    ensures HasStart(r, n) || (op.Start? && op.n == n)
  {
    var r' := ApplyOp(r, op, now);
    var i :| 0 <= i < |r'.transitions| && r'.transitions[i].reason == StartAttempt(n);
    if i < |r.transitions| {
      assert r.transitions[i] == r'.transitions[i];
    }
  }

  lemma StepKeepsBacked(c: Config, s: State, step: Step)
    requires Inv(s) && Backed(s) && (Dies(s, step) ==> !InFlight(s.workers[step.w]))
    ensures Backed(Apply(c, s, step))
  {
    var s' := Apply(c, s, step);
    var n := s'.row.attemptCount + 1;
    if HasStart(s'.row, n) {
      StartOrigin(s.row, OpOf(c, s, step), s.now, n);
      if OpOf(c, s, step).Start? && OpOf(c, s, step).n == n {
        StartedBy(c, s, step);
      } else {
        StartWithin(s.row, OpOf(c, s, step), s.now, n);
        SettlerLeft(c, s, step);
      }
    }
  }

  /** No start row is ahead of the count, so the count has not moved. */
  lemma StartWithin(r: Row, op: Op, now: nat, n: nat)
    requires RowInv(r) && HasStart(r, n) && n == ApplyOp(r, op, now).attemptCount + 1
    ensures ApplyOp(r, op, now).attemptCount == r.attemptCount
  {
    OpAppends(r, op, now);
  }

  lemma {:induction false} BackedReachable(c: Config, run: Run)
    requires CallsComplete(c, run)
    ensures Backed(After(c, run))
  {
    if run.Then? {
      BackedReachable(c, run.before);
      Reachable(c, run.before);
      StepKeepsBacked(c, After(c, run.before), run.step);
    }
  }

  /** The audit log tells exactly whether someone will settle the delivery: a worker with
      the next number is in flight if and only if the log has its `attempt_n` row. */
  lemma SettlerIffAnnounced(c: Config, run: Run)
    requires CallsComplete(c, run)
    ensures var s := After(c, run); HasSettler(s) <==> HasStart(s.row, s.row.attemptCount + 1)
  {
    BackedReachable(c, run);
    Reachable(c, run);
  }

  /** Whatever its call returns, a settler's record takes the row out of DELIVERING. */
  lemma SettlerSettles(c: Config, s: State, w: nat, http: HttpResult, next: nat)
    requires Inv(s) && w in s.workers && InFlight(s.workers[w]) && s.workers[w].n == s.row.attemptCount + 1
    ensures var r := Apply(c, Apply(c, s, Act(w, Answer(http))), Act(w, RecordWrite(next))).row;
            (r.status.Delivered? || r.status.Failed?) && r.attemptCount == s.row.attemptCount + 1
  {
    FreeIsNext(s.row, s.workers[w].n);
    var s1 := Apply(c, s, Act(w, Answer(http)));
    assert s1.row == s.row && At(s1, w, Answered) && s1.workers[w].n == s.workers[w].n;
  }

  /** A DELIVERING row's next attempt has been announced. */
  ghost predicate Announces(r: Row) {
    r.status.Delivering? ==> HasStart(r, r.attemptCount + 1)
  }

  /** A DELIVERING write carries the next number, or that number is announced already. */
  ghost predicate NumberCurrent(r: Row, op: Op) {
    op.Start? ==> op.n == r.attemptCount + 1 || HasStart(r, r.attemptCount + 1)
  }

  lemma OpAnnouncesIff(r: Row, op: Op, now: nat)
    requires Announces(r)
    ensures Announces(ApplyOp(r, op, now)) <==> NumberCurrent(r, op)
  {
    var r', n := ApplyOp(r, op, now), r.attemptCount + 1;
    if op.Start? {
      if op.n == n {
        assert r'.transitions[|r.transitions|].reason == StartAttempt(n);
      } else if HasStart(r, n) {
        StartsStay(r, op, now, n);
      }
    }
  }

  /** Whenever the row is DELIVERING, a worker in flight is bound to settle it. */
  ghost predicate SettledThroughout(c: Config, run: Run) {
    && (After(c, run).row.status.Delivering? ==> HasSettler(After(c, run)))
    && (run.Then? ==> SettledThroughout(c, run.before))
  }

  ghost predicate NumbersCurrent(c: Config, run: Run) {
    run.Then? ==>
      var s := After(c, run.before);
      NumbersCurrent(c, run.before) && NumberCurrent(s.row, OpOf(c, s, run.step))
  }

  /** The exact condition, when no worker dies mid-call: no DELIVERING row is ever left
      without its worker if and only if no DELIVERING write carried a number that is
      neither the next one nor behind an announced one. */
  lemma {:induction false} SettledIffNumbersCurrent(c: Config, run: Run)
    requires CallsComplete(c, run)
    ensures SettledThroughout(c, run) <==> NumbersCurrent(c, run)
  {
    SettlerIffAnnounced(c, run);
    if run.Then? {
      SettledIffNumbersCurrent(c, run.before);
      SettlerIffAnnounced(c, run.before);
      if SettledThroughout(c, run.before) {
        var s := After(c, run.before);
        OpAnnouncesIff(s.row, OpOf(c, s, run.step), s.now);
      }
    }
  }

  // ----- who will pick up a PENDING or FAILED row -----

  /** The worker has decided to complete its job. */
  predicate Committed(k: Worker) {
    k.exit.Returned? && (k.pc.Leaving? || k.pc.Exiting?)
  }

  /** The worker that will complete the job as things stand. */
  predicate Completes(s: State, w: nat, j: JobId) {
    w in s.workers && s.workers[w].job == j && Committed(s.workers[w])
  }

  /** A live job that its current owner will not complete as things stand. */
  ghost predicate Useful(s: State, j: JobId) {
    && j in s.jobs && s.jobs[j].Live?
    && (s.jobs[j].owner.Some? ==> !Completes(s, s.jobs[j].owner.value, j))
  }

  /** The DLQ handler has been told of an exhausted job. */
  predicate Handling(k: Worker) {
    k.pc.Notified? || k.pc.Burying?
  }

  ghost predicate BurialPending(s: State) {
    exists w :: w in s.workers && Handling(s.workers[w])
  }

  ghost predicate Covered(s: State) {
    !Terminal(s.row.status) ==> Original !in s.jobs || (exists j :: Useful(s, j)) || BurialPending(s)
  }

  /** The one rule of `Recoverable` a run may break. */
  datatype Fault = NoFault | StaleNumber | OverTerminal | LostCall | LostRetry | LostBurial | TooManyStalls

  /** Faults are lost or late adds, Redis wipes, lease loss, stalls that are recovered and
      workers that die outside their call.  The DLQ handler completes, a manual retry adds
      a new id, a DELIVERING write is current, and no worker writes over a terminal
      status. */
  ghost predicate Recoverable(f: Fault, c: Config, s: State, step: Step) {
    var op := OpOf(c, s, step);
    && (step.Stall? && Handed(s, step.j) && !f.TooManyStalls? ==> s.jobs[step.j].stalls < c.maxStalls)
    && (step.RetryCall? && s.row.status.Dlq? && !f.LostRetry? ==> step.add.Some? && RetryId(step.add.value) !in s.jobs)
    && (Dies(s, step) && !f.LostCall? ==> !InFlight(s.workers[step.w]))
    && (Dies(s, step) && !f.LostBurial? ==> !Handling(s.workers[step.w]))
    && (f.StaleNumber? || NumberCurrent(s.row, op))
    && ((op.Start? || (op.Record? && NumberFree(s.row, op.n))) && !f.OverTerminal? ==> !Terminal(s.row.status))
  }

  ghost predicate RecoverableRun(f: Fault, c: Config, run: Run) {
    run.Then? ==> RecoverableRun(f, c, run.before) && Recoverable(f, c, After(c, run.before), run.step)
  }

  lemma {:induction false} RecoverableCompletes(c: Config, run: Run)
    requires RecoverableRun(NoFault, c, run)
    ensures CallsComplete(c, run) && NumbersCurrent(c, run)
  {
    if run.Then? {
      RecoverableCompletes(c, run.before);
    }
  }

  /** Only the owner's report ends a job, and only its reading of a terminal row or its own
      recorded SUCCESS makes it complete one. */
  lemma MoveOfOwner(c: Config, s: State, w: nat, a: Action)
    requires w in s.workers
    ensures var k, m := s.workers[w], MoveOf(c, s, w, a);
            && (m.job.Some? ==> a.Report? && Owns(s, k.job, w))
            && (m.next.Some? && Committed(m.next.value) && !Committed(k) ==>
                  Terminal(ApplyOp(s.row, m.op, s.now).status))
            && (m.job.Some? && !Committed(k) ==>
                  || m.job.value.Live?
                  || (m.next.Some? && Handling(m.next.value))
                  || Terminal(ApplyOp(s.row, m.op, s.now).status))
  {
  }

  /** A useful job stays useful, or hands over to the DLQ handler, as long as the row stays
      non-terminal. */
  lemma UsefulStays(c: Config, s: State, w: nat, a: Action, j: JobId)
    requires w in s.workers && Useful(s, j)
    requires !Terminal(Apply(c, s, Act(w, a)).row.status)
    ensures Useful(Apply(c, s, Act(w, a)), j) || BurialPending(Apply(c, s, Act(w, a)))
  {
    var s' := Apply(c, s, Act(w, a));
    MoveOfOwner(c, s, w, a);
    MoveKeeps(c, s, w, a);
    if MoveOf(c, s, w, a).next.Some? && Handling(s'.workers[w]) {
      assert BurialPending(s');
    }
  }

  lemma BurialStays(c: Config, s: State, step: Step, w: nat)
    requires w in s.workers && Handling(s.workers[w]) && Recoverable(NoFault, c, s, step)
    requires !Terminal(Apply(c, s, step).row.status)
    ensures BurialPending(Apply(c, s, step))
  {
    var s' := Apply(c, s, step);
    assert w in s'.workers && Handling(s'.workers[w]);
  }

  lemma ActKeepsCovered(c: Config, s: State, w: nat, a: Action)
    requires w in s.workers && Covered(s) && Recoverable(NoFault, c, s, Act(w, a))
    ensures Covered(Apply(c, s, Act(w, a)))
  {
    var s' := Apply(c, s, Act(w, a));
    MoveOp(c, s, w, a);
    if !Terminal(s'.row.status) && Original in s'.jobs {
      assert !Terminal(s.row.status);
      if v :| v in s.workers && Handling(s.workers[v]) {
        BurialStays(c, s, Act(w, a), v);
      } else {
        var j :| Useful(s, j);
        UsefulStays(c, s, w, a, j);
      }
    }
  }

  lemma EnvKeepsCovered(c: Config, s: State, step: Step)
    requires !step.Act? && Covered(s) && Recoverable(NoFault, c, s, step)
    ensures Covered(Apply(c, s, step))
  {
    var s' := Apply(c, s, step);
    if !Terminal(s'.row.status) && Original in s'.jobs {
      if Original !in s.jobs {
        assert Useful(s', Original);
      } else if Terminal(s.row.status) {
        assert step.RetryCall?;
        assert Useful(s', RetryId(step.add.value));
      } else if v :| v in s.workers && Handling(s.workers[v]) {
        BurialStays(c, s, step, v);
      } else {
        var j :| Useful(s, j);
        assert Useful(s', j);
      }
    }
  }

  lemma {:induction false} CoveredReachable(c: Config, run: Run)
    requires RecoverableRun(NoFault, c, run)
    ensures Covered(After(c, run))
  {
    if run.Then? {
      CoveredReachable(c, run.before);
      var s, step := After(c, run.before), run.step;
      if step.Act? {
        if step.w in s.workers {
          ActKeepsCovered(c, s, step.w, step.a);
        }
      } else {
        EnvKeepsCovered(c, s, step);
      }
    }
  }

  // ----- the theorem -----

  /** Once the grace period and any retry time have passed, one sweep adds the job. */
  ghost predicate SweepRecovers(c: Config, s: State) {
    forall t: nat | t >= s.now && t > s.row.updatedAt + c.grace
                    && (s.row.status.Failed? ==> s.row.nextAttemptAt.Some? && t > s.row.nextAttemptAt.value) ::
      var s' := Apply(c, Apply(c, s, Tick(t)), Sweep);
      Original in s'.jobs && s'.jobs[Original].Live?
  }

  lemma FreeIdIsSwept(c: Config, s: State)
    requires RowInv(s.row) && Original !in s.jobs && (s.row.status.Pending? || s.row.status.Failed?)
    ensures SweepRecovers(c, s)
  {
  }

  /** Every non-terminal delivery has a live job nobody is about to complete, or a DLQ
      handler about to bury it, or is DELIVERING with a worker bound to settle it, or is
      one sweep away from a live job. */
  lemma NoDeliveryStranded(c: Config, run: Run)
    requires RecoverableRun(NoFault, c, run)
    ensures var s := After(c, run);
            || Terminal(s.row.status)
            || (exists j :: Useful(s, j))
            || BurialPending(s)
            || (s.row.status.Delivering? && HasSettler(s))
            || (!s.row.status.Delivering? && Original !in s.jobs && SweepRecovers(c, s))
  {
    var s := After(c, run);
    Reachable(c, run);
    CoveredReachable(c, run);
    RecoverableCompletes(c, run);
    SettledIffNumbersCurrent(c, run);
    if !Terminal(s.row.status) && !s.row.status.Delivering? && Original !in s.jobs {
      FreeIdIsSwept(c, s);
    }
  }

  // ----- stranded states, exactly -----

  /** Nobody works on the delivery, no job is live, and no later sweep changes that. */
  ghost predicate Stranded(c: Config, s: State) {
    && !Terminal(s.row.status) && s.workers == map[] && NoLiveJob(s)
    && forall t: nat :: NoLiveJob(Apply(c, Apply(c, s, Tick(t)), Sweep))
  }

  ghost predicate NoLiveJob(s: State) {
    forall j | j in s.jobs :: !s.jobs[j].Live?
  }

  /** A non-terminal delivery nobody works on is out of reach exactly when no job is live
      and it is DELIVERING or its own id is still taken. */
  lemma StrandedIff(c: Config, s: State)
    requires RowInv(s.row) && s.workers == map[] && !Terminal(s.row.status)
    ensures Stranded(c, s) <==> NoLiveJob(s) && (s.row.status.Delivering? || Original in s.jobs)
  {
    if !s.row.status.Delivering? && Original !in s.jobs {
      FreeIdIsSwept(c, s);
      var t := s.now + s.row.updatedAt + c.grace + (if s.row.status.Failed? then s.row.nextAttemptAt.value else 0) + 1;
      var s' := Apply(c, Apply(c, s, Tick(t)), Sweep);
      assert s'.jobs[Original].Live?;
      assert !NoLiveJob(s');
    }
  }

  /** Steps by which time passes, keys expire, sweeps run and workers poll. */
  predicate Routine(step: Step) {
    step.Tick? || step.Expire? || step.Stall? || step.EnqueueFlag? || step.Sweep? || step.Pickup? || step.Act?
  }

  lemma RoutineKeepsAll(c: Config, s: State, step: Step)
    requires Routine(step) && s.workers == map[] && NoLiveJob(s)
    requires s.row.status.Delivering? || (!Terminal(s.row.status) && Original in s.jobs)
    ensures var s' := Apply(c, s, step);
            s'.workers == map[] && s'.jobs == s.jobs && s'.row.status == s.row.status
  {
  }

  /** No routine continuation gets a stranded delivery moving again. */
  lemma {:induction false} StrandedStays(c: Config, run: Run, longer: Run)
    requires Stranded(c, After(c, run)) && Extends(longer, run) && RoutineSince(longer, run)
    ensures Stranded(c, After(c, longer)) && After(c, longer).jobs == After(c, run).jobs
  {
    if longer != run {
      StrandedStays(c, run, longer.before);
      var s := After(c, longer.before);
      Reachable(c, longer.before);
      Reachable(c, longer);
      StrandedIff(c, s);
      RoutineKeepsAll(c, s, longer.step);
      StrandedIff(c, After(c, longer));
    }
  }

  ghost predicate RoutineSince(longer: Run, run: Run) {
    longer == run || (longer.Then? && Routine(longer.step) && RoutineSince(longer.before, run))
  }

  /** Under the recovery rules no reachable state is stranded. */
  lemma RecoverableNeverStranded(c: Config, run: Run)
    requires RecoverableRun(NoFault, c, run)
    ensures !Stranded(c, After(c, run))
  {
    NoDeliveryStranded(c, run);
    Reachable(c, run);
    if Stranded(c, After(c, run)) {
      StrandedIff(c, After(c, run));
      assert false;
    }
  }

  /** Under the recovery rules a delivery whose job is over, with nobody left working on it,
      is DELIVERED or in the DLQ. */
  lemma OverMeansTerminal(c: Config, run: Run)
    requires RecoverableRun(NoFault, c, run)
    requires var s := After(c, run); s.workers == map[] && NoLiveJob(s) && Original in s.jobs
    ensures Terminal(After(c, run).row.status)
  {
    RecoverableNeverStranded(c, run);
    Reachable(c, run);
    if !Terminal(After(c, run).row.status) {
      StrandedIff(c, After(c, run));
      assert false;
    }
  }
}
