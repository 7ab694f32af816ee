/** What the columns of a delivery say about the run behind them. */
module History {
  import opened Rows
  import opened Protocol
  import opened Fencing
  import opened Once
  import opened Steps
  import Reconciler

  // ----- next_attempt_at -----

  /** The step is a record transaction that committed. */
  predicate Recorded(c: Config, s: State, step: Step) {
    step.Act? && step.a.RecordWrite? && |Apply(c, s, step).row.attempts| > |s.row.attempts|
  }

  /** The retry time of the last committed record: none after a SUCCESS or without a record. */
  function LastRetryTime(c: Config, run: Run): Option<nat> {
    match run
    case Commit => None
    case Then(before, step) =>
      var log := After(c, run).row.attempts;
      if !Recorded(c, After(c, before), step) || log == [] then LastRetryTime(c, before)
      else if log[|log| - 1].outcome == Success then None
      else Some(step.a.next)
  }

  lemma StepRetryTime(c: Config, s: State, step: Step)
    ensures var s' := Apply(c, s, step);
            && (!Recorded(c, s, step) ==>
                  s'.row.nextAttemptAt == s.row.nextAttemptAt && s'.row.attempts == s.row.attempts)
            && (Recorded(c, s, step) ==>
                  && s'.row.attempts != []
                  && s'.row.nextAttemptAt ==
                     (if s'.row.attempts[|s'.row.attempts| - 1].outcome == Success then None else Some(step.a.next)))
  {
    if step.Act? && step.w in s.workers {
      MoveOp(c, s, step.w, step.a);
    }
  }

  /** On every run next_attempt_at is the retry time of the last committed record. */
  lemma {:induction false} RetryTimeIsLast(c: Config, run: Run)
    ensures After(c, run).row.nextAttemptAt == LastRetryTime(c, run)
  {
    if run.Then? {
      RetryTimeIsLast(c, run.before);
      StepRetryTime(c, After(c, run.before), run.step);
    }
  }

  /** On every run a sweep claims a FAILED delivery only after the retry time its last record
      computed, and any delivery only a grace period after its last write. */
  lemma SweepWaits(c: Config, run: Run)
    requires Reconciler.Claims(c, After(c, run), Sweep)
    ensures var s := After(c, run);
            && (s.row.status == Pending || s.row.status == Failed) && LastWrite(c, run) + c.grace < s.now
            && (s.row.status == Failed ==> LastRetryTime(c, run).Some? && LastRetryTime(c, run).value < s.now)
  {
    RetryTimeIsLast(c, run);
    StampIsLastWrite(c, run);
  }

  /** And it does claim: a PENDING or FAILED delivery past these times. */
  lemma SweepClaimsDue(c: Config, run: Run)
    requires var s := After(c, run);
             && (s.row.status == Pending || s.row.status == Failed) && LastWrite(c, run) + c.grace < s.now
             && (s.row.status == Failed ==> LastRetryTime(c, run).Some? && LastRetryTime(c, run).value < s.now)
    ensures var s, s' := After(c, run), After(c, Then(run, Sweep));
            s'.row.enqueued && s'.row.updatedAt == s.now && Original in s'.jobs
  {
    RetryTimeIsLast(c, run);
    StampIsLastWrite(c, run);
  }

  // ----- updated_at -----

  /** The step sets the enqueued flag. */
  predicate Flags(c: Config, s: State, step: Step) {
    step.EnqueueFlag? || Reconciler.Claims(c, s, step)
  }

  /** When the row was last written: a transition was logged or the flag was set. */
  function LastWrite(c: Config, run: Run): nat {
    match run
    case Commit => c.createdAt
    case Then(before, step) =>
      var s := After(c, before);
      if |After(c, run).row.transitions| > |s.row.transitions| || Flags(c, s, step) then s.now else LastWrite(c, before)
  }

  lemma StepStamps(c: Config, s: State, step: Step)
    ensures var r, r' := s.row, Apply(c, s, step).row;
            && (|r'.transitions| > |r.transitions| ==>
                  r'.updatedAt == s.now && r'.transitions[|r'.transitions| - 1].at == s.now)
            && (Flags(c, s, step) ==> r'.updatedAt == s.now && r'.enqueued)
            && (!Flags(c, s, step) ==> r'.enqueued == r.enqueued)
            && (|r'.transitions| <= |r.transitions| && !Flags(c, s, step) ==> r'.updatedAt == r.updatedAt)
  {
    if step.Act? && step.w in s.workers {
      MoveOp(c, s, step.w, step.a);
    }
  }

  /** On every run updated_at is the time of the last write. */
  lemma {:induction false} StampIsLastWrite(c: Config, run: Run)
    ensures After(c, run).row.updatedAt == LastWrite(c, run)
  {
    if run.Then? {
      StampIsLastWrite(c, run.before);
      StepStamps(c, After(c, run.before), run.step);
    }
  }

  /** Some step of the run set the flag. */
  ghost predicate WasFlagged(c: Config, run: Run) {
    run.Then? && (WasFlagged(c, run.before) || Flags(c, After(c, run.before), run.step))
  }

  /** The flag says exactly that some enqueue or sweep got as far as setting it. */
  lemma {:induction false} EnqueuedIffFlagged(c: Config, run: Run)
    ensures After(c, run).row.enqueued <==> WasFlagged(c, run)
  {
    if run.Then? {
      EnqueuedIffFlagged(c, run.before);
      StepStamps(c, After(c, run.before), run.step);
    }
  }

  // ----- SUCCESS -----

  /** Some call of the run was answered with a 2xx status. */
  ghost predicate WasAccepted(run: Run) {
    run.Then? && (WasAccepted(run.before) || IsAccept(run.step))
  }

  predicate IsAccept(step: Step) {
    step.Act? && step.a.Answer? && step.a.http.HttpStatus? && 200 <= step.a.http.code <= 299
  }

  /** No worker is about to record a SUCCESS, and none is recorded. */
  ghost predicate NoneAccepted(s: State) {
    && !HasSuccess(s.row)
    && forall w | w in s.workers && s.workers[w].pc.Answered? :: s.workers[w].outcome != Success
  }

  lemma AnswerOutcome(c: Config, s: State, w: nat, a: Action)
    requires w in s.workers && !IsAccept(Act(w, a))
    requires s.workers[w].pc.Answered? ==> s.workers[w].outcome != Success
    ensures var m := MoveOf(c, s, w, a);
            && (m.next.Some? && m.next.value.pc.Answered? ==> m.next.value.outcome != Success)
            && (m.op.Record? ==> m.op.outcome != Success)
  {
  }

  lemma StepAcceptsNone(c: Config, s: State, step: Step)
    requires NoneAccepted(s) && !IsAccept(step)
    ensures NoneAccepted(Apply(c, s, step))
  {
    var s' := Apply(c, s, step);
    if step.Act? && step.w in s.workers {
      AnswerOutcome(c, s, step.w, step.a);
    }
    forall w | w in s'.workers && s'.workers[w].pc.Answered?
      ensures s'.workers[w].outcome != Success
    {
      WorkerOrigin(c, s, step, w);
    }
  }

  lemma {:induction false} NoneAcceptedReachable(c: Config, run: Run)
    requires !WasAccepted(run)
    ensures NoneAccepted(After(c, run))
  {
    if run.Then? {
      NoneAcceptedReachable(c, run.before);
      StepAcceptsNone(c, After(c, run.before), run.step);
    }
  }

  /** On every run a SUCCESS attempt, and so a DELIVERED row, means that some call was
      answered with a 2xx status. */
  lemma SuccessWasAnswered(c: Config, run: Run)
    ensures HasSuccess(After(c, run).row) ==> WasAccepted(run)
    ensures After(c, run).row.status == Delivered ==> WasAccepted(run)
  {
    if !WasAccepted(run) {
      NoneAcceptedReachable(c, run);
      AuditQueriesEmpty(c, run);
    }
  }

  // ----- jobs -----

  /** No Redis wipe since `run`. */
  ghost predicate NoWipeSince(longer: Run, run: Run) {
    longer == run || (longer.Then? && NoWipeSince(longer.before, run) && !longer.step.Wipe?)
  }

  /** Only its owner's report ends a job, and an ended job has no owner. */
  lemma OnlyOwnersEnd(c: Config, s: State, w: nat, a: Action)
    requires w in s.workers
    ensures MoveOf(c, s, w, a).job.Some? ==> Owns(s, s.workers[w].job, w)
  {
  }

  lemma StepKeepsFailed(c: Config, s: State, step: Step, j: JobId)
    requires j in s.jobs && s.jobs[j].Finished? && s.jobs[j].failed && !step.Wipe?
    ensures var s' := Apply(c, s, step); j in s'.jobs && s'.jobs[j] == s.jobs[j]
  {
    if step.Act? && step.w in s.workers {
      OnlyOwnersEnd(c, s, step.w, step.a);
    }
  }

  /** A failed job keeps its id for good: only a wipe of Redis frees it. */
  lemma {:induction false} FailedJobStays(c: Config, run: Run, longer: Run, j: JobId)
    requires Extends(longer, run) && NoWipeSince(longer, run)
    requires j in After(c, run).jobs && After(c, run).jobs[j].Finished? && After(c, run).jobs[j].failed
    ensures j in After(c, longer).jobs && After(c, longer).jobs[j] == After(c, run).jobs[j]
  {
    if longer != run {
      FailedJobStays(c, run, longer.before, j);
      StepKeepsFailed(c, After(c, longer.before), longer.step, j);
    }
  }

  /** A manual retry of a delivery outside the DLQ changes nothing; inside, it makes the row
      PENDING and leaves its attempts alone. */
  lemma RetryOnlyFromDlq(c: Config, run: Run, add: Option<nat>)
    ensures var s, s' := After(c, run), After(c, Then(run, RetryCall(add)));
            && (s.row.status != Dlq ==> s' == s)
            && (s.row.status == Dlq ==>
                  && s'.row.status == Pending && s'.row.attempts == s.row.attempts
                  && s'.workers == s.workers && s'.lock == s.lock
                  && (add.Some? ==> RetryId(add.value) in s'.jobs)
                  && (add.None? ==> s'.jobs == s.jobs))
  {
  }

  /** The worker is before its record: an error at its next await reaches `finally`. */
  predicate CanThrow(k: Worker) {
    k.pc.Locked? || InSection(k)
  }

  lemma ThrowStates(c: Config, run: Run, s: State, w: nat)
    requires s == After(c, run) && w in s.workers && CanThrow(s.workers[w])
    ensures After(c, Then(run, Act(w, Fail))) == Put(s, w, s.workers[w].(pc := Leaving, exit := ThrewOther))
  {
  }

  /** An infrastructure error consumes an attempt of the job although none is recorded: the
      worker gives the lock back, and the job is retried or, out of attempts, buried. */
  lemma ThrowConsumesAttempt(c: Config, run: Run, s: State, w: nat)
    requires s == After(c, run) && w in s.workers && CanThrow(s.workers[w]) && Owns(s, s.workers[w].job, w)
    ensures var id := s.workers[w].job;
            var s' := After(c, Then(Then(Then(run, Act(w, Fail)), Act(w, Unlock)), Act(w, Report(true))));
            && w !in s'.workers && s'.lock != Some(s.workers[w].token) && s'.row.attempts == s.row.attempts
            && id in s'.jobs && s'.jobs[id].made == s.jobs[id].made + 1
            && (s.jobs[id].made + 1 < c.maxAttempts ==> s'.jobs[id].Live? && s'.row == s.row)
            && (s.jobs[id].made + 1 >= c.maxAttempts ==> s'.jobs[id].Finished? && s'.row.status == Dlq)
  {
    ThrowStates(c, run, s, w);
    var r1 := Then(run, Act(w, Fail));
    UnlockStates(c, r1, After(c, r1), w);
  }

  /** The handler is idempotent: notified of a delivery already in the DLQ it writes nothing;
      otherwise, alone, it moves the delivery there from the status it read. */
  lemma HandlerBuriesOnce(c: Config, run: Run, s: State, h: nat)
    requires s == After(c, run) && At(s, h, Notified)
    ensures var s' := After(c, Then(Then(run, Act(h, HandlerRead)), Act(h, HandlerWrite)));
            && s'.workers == s.workers - {h} && s'.jobs == s.jobs
            && (s.row.status == Dlq ==> s'.row == s.row)
            && (s.row.status != Dlq ==>
                  && s'.row.status == Dlq && s'.row.attempts == s.row.attempts
                  && s'.row.transitions == s.row.transitions + [Transition(Some(s.row.status), Dlq, Exhausted, s.now)])
  {
    var r1 := Then(run, Act(h, HandlerRead));
    if s.row.status == Dlq {
      assert After(c, r1) == s.(workers := s.workers - {h});
    } else {
      assert After(c, r1) == Put(s, h, s.workers[h].(pc := Burying, from := s.row.status));
    }
  }
}
