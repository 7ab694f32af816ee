/** Delivered at most once.

    `transition()` guards neither status nor lease, so the property is not free.  First
    the exact condition on a run, then the lease discipline that implies it.  Runs that
    break it are in `Counterexamples`. */
module Once {
  import opened Rows
  import opened Protocol
  import opened Fencing

  ghost predicate HasSuccess(r: Row) {
    exists i | 0 <= i < |r.attempts| :: r.attempts[i].outcome.Success?
  }

  function Successes(log: seq<Attempt>): nat {
    if log == [] then 0 else Successes(log[..|log| - 1]) + (if log[|log| - 1].outcome.Success? then 1 else 0)
  }

  function DeliveredRows(ts: seq<Transition>): nat {
    if ts == [] then 0 else DeliveredRows(ts[..|ts| - 1]) + (if ts[|ts| - 1].to.Delivered? then 1 else 0)
  }

  /** At most one SUCCESS, at most one row into DELIVERED (audit query I1), and once there
      is a SUCCESS the status is DELIVERED. */
  ghost predicate DeliveredOnce(r: Row) {
    Successes(r.attempts) <= 1 && DeliveredRows(r.transitions) <= 1 && (HasSuccess(r) ==> r.status.Delivered?)
  }

  ghost predicate OnceThroughout(c: Config, run: Run) {
    DeliveredOnce(After(c, run).row) && (run.Then? ==> OnceThroughout(c, run.before))
  }

  /** The two writes that ignore the current status, issued after a SUCCESS. */
  ghost predicate Overwrites(c: Config, s: State, step: Step) {
    HasSuccess(s.row) && (OpOf(c, s, step).Start? || OpOf(c, s, step).Bury?)
  }

  ghost predicate NeverOverwrites(c: Config, run: Run) {
    run.Then? ==>
      NeverOverwrites(c, run.before) && !Overwrites(c, After(c, run.before), run.step)
  }

  // ----- counting -----

  ghost predicate SuccessIsLast(r: Row) {
    forall i | 0 <= i < |r.attempts| && r.attempts[i].outcome.Success? ::
      i == |r.attempts| - 1 && r.status.Delivered?
  }

  lemma {:induction false} NoSuccessCountsZero(log: seq<Attempt>)
    requires forall i | 0 <= i < |log| :: !log[i].outcome.Success?
    ensures Successes(log) == 0
  {
    if log != [] {
      NoSuccessCountsZero(log[..|log| - 1]);
    }
  }

  /** Rows into DELIVERED are counted by the reporting rows alone. */
  lemma {:induction false} DeliveredRowsAreReports(ts: seq<Transition>)
    ensures DeliveredRows(ts) == DeliveredRows(RecordedRows(ts))
  {
    if ts != [] {
      var front, t := ts[..|ts| - 1], ts[|ts| - 1];
      DeliveredRowsAreReports(front);
      var rec := RecordedRows(front);
      if t.to.Failed? || t.to.Delivered? {
        assert (rec + [t])[..|rec|] == rec;
      } else {
        assert RecordedRows(ts) == rec;
      }
    }
  }

  lemma {:induction false} ReportsCountSuccesses(rec: seq<Transition>, log: seq<Attempt>)
    requires |rec| == |log|
    requires forall i | 0 <= i < |rec| :: rec[i].to == StatusOf(log[i].outcome)
    ensures DeliveredRows(rec) == Successes(log)
  {
    if rec != [] {
      ReportsCountSuccesses(rec[..|rec| - 1], log[..|log| - 1]);
    }
  }

  lemma LastSuccessIsOnce(r: Row)
    requires RowInv(r) && SuccessIsLast(r)
    ensures DeliveredOnce(r)
  {
    if r.attempts != [] {
      NoSuccessCountsZero(r.attempts[..|r.attempts| - 1]);
    }
    DeliveredRowsAreReports(r.transitions);
    ReportsCountSuccesses(RecordedRows(r.transitions), r.attempts);
  }

  // ----- the exact condition -----

  /** After a SUCCESS every number still in flight is already taken. */
  ghost predicate Clear(s: State) {
    && SuccessIsLast(s.row)
    && (HasSuccess(s.row) ==>
          forall w | w in s.workers && InSection(s.workers[w]) :: s.workers[w].n <= s.row.attemptCount)
  }

  lemma OpKeepsLast(r: Row, op: Op, now: nat)
    requires RowInv(r) && Fits(r, op) && SuccessIsLast(r)
    requires HasSuccess(r) ==> !op.Start? && !op.Bury? && (op.Record? ==> op.n <= r.attemptCount)
    ensures var r' := ApplyOp(r, op, now);
            && SuccessIsLast(r')
            && (HasSuccess(r) ==> r'.attemptCount == r.attemptCount)
            && (HasSuccess(r') && !HasSuccess(r) ==>
                  r'.attemptCount == r.attemptCount + 1 && op.Record? && op.outcome.Success?)
  {
    if op.Record? {
      FreeIsNext(r, op.n);
    }
  }

  lemma StepKeepsLast(c: Config, s: State, step: Step)
    requires Inv(s) && Clear(s) && !Overwrites(c, s, step)
    ensures var op, r' := OpOf(c, s, step), Apply(c, s, step).row;
            && SuccessIsLast(r')
            && (HasSuccess(s.row) ==> r'.attemptCount == s.row.attemptCount)
            && (HasSuccess(r') && !HasSuccess(s.row) ==>
                  r'.attemptCount == s.row.attemptCount + 1 && op.Record? && op.outcome.Success?)
  {
    StepFits(c, s, step);
    if step.Act? && step.w in s.workers {
      MoveOp(c, s, step.w, step.a);
    }
    OpKeepsLast(s.row, OpOf(c, s, step), s.now);
  }

  lemma StepKeepsClear(c: Config, s: State, step: Step)
    requires Inv(s) && Clear(s) && !Overwrites(c, s, step)
    ensures Clear(Apply(c, s, step))
  {
    var s' := Apply(c, s, step);
    StepKeepsLast(c, s, step);
    if HasSuccess(s'.row) {
      forall w | w in s'.workers && InSection(s'.workers[w])
        ensures s'.workers[w].n <= s'.row.attemptCount
      {
        WorkerOrigin(c, s, step, w);
        if step.Act? && step.w == w {
          MoveKeeps(c, s, w, step.a);
          MoveOp(c, s, w, step.a);
        }
      }
    }
  }

  lemma {:induction false} GuardedRunsClear(c: Config, run: Run)
    requires NeverOverwrites(c, run)
    ensures Clear(After(c, run)) && OnceThroughout(c, run)
  {
    if run.Then? {
      var front := run.before;
      GuardedRunsClear(c, front);
      Reachable(c, front);
      StepKeepsClear(c, After(c, front), run.step);
    }
    Reachable(c, run);
    LastSuccessIsOnce(After(c, run).row);
  }

  /** A run delivers at most once, throughout, exactly when no DELIVERING or DLQ write is
      issued after a SUCCESS.  Stale LOCK_LOST and CIRCUIT_OPEN records need no guard. */
  lemma {:induction false} OnceIffNeverOverwritten(c: Config, run: Run)
    ensures OnceThroughout(c, run) <==> NeverOverwrites(c, run)
  {
    if NeverOverwrites(c, run) {
      GuardedRunsClear(c, run);
    } else {
      var front, step := run.before, run.step;
      OnceIffNeverOverwritten(c, front);
      if NeverOverwrites(c, front) {
        var s := After(c, front);
        OpAppends(s.row, OpOf(c, s, step), s.now);
        var i :| 0 <= i < |s.row.attempts| && s.row.attempts[i].outcome.Success?;
        assert After(c, run).row.attempts[i].outcome.Success?;
      }
    }
  }

  // ----- the lease discipline -----

  /** The one rule of the discipline a run may break. */
  datatype Lapse = NoLapse | AtStart | AtRecord | AtBurial

  /** The worker's token is in the lock when it writes DELIVERING and when it records a
      SUCCESS, and the DLQ handler writes only after a recorded failure. */
  ghost predicate Leased(l: Lapse, c: Config, s: State, step: Step) {
    var op := OpOf(c, s, step);
    && (op.Start? && !l.AtStart? ==> HoldsLock(s, step))
    && (op.Record? && op.outcome.Success? && !l.AtRecord? ==> HoldsLock(s, step))
    && (op.Bury? && !l.AtBurial? ==> s.row.attempts != [] && !s.row.attempts[|s.row.attempts| - 1].outcome.Success?)
  }

  /** The lock holds the token of the worker whose step this is. */
  ghost predicate HoldsLock(s: State, step: Step) {
    step.Act? && step.w in s.workers && s.lock == Some(s.workers[step.w].token)
  }

  ghost predicate LeasedRun(l: Lapse, c: Config, run: Run) {
    run.Then? ==> LeasedRun(l, c, run.before) && Leased(l, c, After(c, run.before), run.step)
  }

  /** Tokens are never reused. */
  ghost predicate TokensDistinct(s: State) {
    && (s.lock.Some? ==> s.lock.value in s.issued)
    && (forall w | w in s.workers && HasToken(s.workers[w]) :: s.workers[w].token in s.issued)
    && (forall v, w | v in s.workers && w in s.workers && v != w && HasToken(s.workers[v]) && HasToken(s.workers[w]) ::
          s.workers[v].token != s.workers[w].token)
  }

  /** A worker in its section that holds the lock has not been overtaken by a SUCCESS. */
  ghost predicate HolderFirst(s: State) {
    forall w | w in s.workers && InSection(s.workers[w]) && s.lock == Some(s.workers[w].token) :: !HasSuccess(s.row)
  }

  lemma TokenOrigin(c: Config, s: State, step: Step, w: nat)
    requires w in Apply(c, s, step).workers && HasToken(Apply(c, s, step).workers[w])
    ensures var t := Apply(c, s, step).workers[w].token;
            || (w in s.workers && HasToken(s.workers[w]) && t == s.workers[w].token)
            || (step.Act? && step.w == w && t !in s.issued && t in Apply(c, s, step).issued)
  {
    WorkerOrigin(c, s, step, w);
    if step.Act? && step.w == w {
      MoveKeeps(c, s, w, step.a);
    }
  }

  /** The lock only becomes free or takes a token never drawn before. */
  lemma LockOrigin(c: Config, s: State, step: Step)
    ensures var s' := Apply(c, s, step);
            && s.issued <= s'.issued
            && (s'.lock == s.lock || s'.lock == None || (s'.lock.value !in s.issued && s'.lock.value in s'.issued))
  {
    if step.Act? && step.w in s.workers {
      MoveKeeps(c, s, step.w, step.a);
    }
  }

  lemma StepKeepsTokens(c: Config, s: State, step: Step)
    requires TokensDistinct(s)
    ensures TokensDistinct(Apply(c, s, step))
  {
    var s' := Apply(c, s, step);
    LockOrigin(c, s, step);
    forall w | w in s'.workers && HasToken(s'.workers[w])
      ensures s'.workers[w].token in s'.issued
    {
      TokenOrigin(c, s, step, w);
    }
    forall v, w | v in s'.workers && w in s'.workers && v != w && HasToken(s'.workers[v]) && HasToken(s'.workers[w])
      ensures s'.workers[v].token != s'.workers[w].token
    {
      TokenOrigin(c, s, step, v);
      TokenOrigin(c, s, step, w);
    }
  }

  /** On every run the lock and the workers hold distinct tokens that were drawn. */
  lemma {:induction false} TokensReachable(c: Config, run: Run)
    ensures TokensDistinct(After(c, run))
  {
    if run.Then? {
      TokensReachable(c, run.before);
      StepKeepsTokens(c, After(c, run.before), run.step);
    }
  }

  /** Only a record under the lease adds a SUCCESS, and then nobody else holds the lock. */
  lemma StepKeepsHolderFirst(c: Config, s: State, step: Step)
    requires Inv(s) && Clear(s) && TokensDistinct(s) && HolderFirst(s) && Leased(NoLapse, c, s, step)
    requires !Overwrites(c, s, step)
    ensures HolderFirst(Apply(c, s, step))
  {
    var s' := Apply(c, s, step);
    LockOrigin(c, s, step);
    StepKeepsLast(c, s, step);
    forall w | w in s'.workers && InSection(s'.workers[w]) && s'.lock == Some(s'.workers[w].token)
      ensures !HasSuccess(s'.row)
    {
      WorkerOrigin(c, s, step, w);
      if step.Act? && step.w in s.workers {
        MoveKeeps(c, s, step.w, step.a);
        MoveOp(c, s, step.w, step.a);
      }
    }
  }

  /** A leased step never writes over a SUCCESS. */
  lemma LeasedGuards(c: Config, s: State, step: Step)
    requires Clear(s) && HolderFirst(s) && Leased(NoLapse, c, s, step)
    ensures !Overwrites(c, s, step)
  {
    if step.Act? && step.w in s.workers {
      MoveOp(c, s, step.w, step.a);
    }
  }

  lemma {:induction false} LeasedRunsAreGuarded(c: Config, run: Run)
    requires LeasedRun(NoLapse, c, run)
    ensures NeverOverwrites(c, run)
    ensures HolderFirst(After(c, run))
  {
    if run.Then? {
      var front, step := run.before, run.step;
      LeasedRunsAreGuarded(c, front);
      GuardedRunsClear(c, front);
      Reachable(c, front);
      var s := After(c, front);
      LeasedGuards(c, s, step);
      TokensReachable(c, front);
      StepKeepsHolderFirst(c, s, step);
    }
  }

  /** Under the lease discipline every run, whatever else it interleaves, delivers once. */
  lemma LeasedRunsDeliverOnce(c: Config, run: Run)
    requires LeasedRun(NoLapse, c, run)
    ensures OnceThroughout(c, run)
  {
    LeasedRunsAreGuarded(c, run);
    GuardedRunsClear(c, run);
  }
}
