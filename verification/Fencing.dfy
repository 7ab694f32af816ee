/** What holds in every reachable state, with no assumption on leases or faults. */
module Fencing {
  import opened Rows
  import opened Protocol

  /** The attempt number works as a fencing token: nobody is ahead of the next number. */
  ghost predicate Fenced(s: State) {
    forall w | w in s.workers && InSection(s.workers[w]) ::
      1 <= s.workers[w].n <= s.row.attemptCount + 1 && !Terminal(s.workers[w].from)
  }

  /** A worker in flight has left its `attempt_n` row in the log. */
  ghost predicate Announced(s: State) {
    forall w | w in s.workers && InFlight(s.workers[w]) :: HasStart(s.row, s.workers[w].n)
  }

  ghost predicate HasStart(r: Row, n: nat) {
    exists i | 0 <= i < |r.transitions| :: r.transitions[i].reason == StartAttempt(n)
  }

  ghost predicate Inv(s: State) {
    RowInv(s.row) && Fenced(s) && Announced(s)
  }

  lemma StepFits(c: Config, s: State, step: Step)
    requires Fenced(s)
    ensures Fits(s.row, OpOf(c, s, step))
  {
    if step.Act? && step.w in s.workers {
      MoveOp(c, s, step.w, step.a);
    }
  }

  lemma StepKeepsFenced(c: Config, s: State, step: Step)
    requires Fenced(s)
    ensures Fenced(Apply(c, s, step))
  {
    var s' := Apply(c, s, step);
    OpAppends(s.row, OpOf(c, s, step), s.now);
    forall w | w in s'.workers && InSection(s'.workers[w])
      ensures 1 <= s'.workers[w].n <= s'.row.attemptCount + 1 && !Terminal(s'.workers[w].from)
    {
      WorkerOrigin(c, s, step, w);
      if step.Act? && step.w == w {
        MoveKeeps(c, s, w, step.a);
      }
    }
  }

  lemma StartsStay(r: Row, op: Op, now: nat, n: nat)
    requires HasStart(r, n)
    ensures HasStart(ApplyOp(r, op, now), n)
  {
    var i :| 0 <= i < |r.transitions| && r.transitions[i].reason == StartAttempt(n);
    assert ApplyOp(r, op, now).transitions[i] == r.transitions[i];
  }

  lemma StepKeepsAnnounced(c: Config, s: State, step: Step)
    requires Announced(s)
    ensures Announced(Apply(c, s, step))
  {
    var s' := Apply(c, s, step);
    forall w | w in s'.workers && InFlight(s'.workers[w])
      ensures HasStart(s'.row, s'.workers[w].n)
    {
      var n := s'.workers[w].n;
      WorkerOrigin(c, s, step, w);
      if step.Act? && step.w == w {
        MoveKeeps(c, s, w, step.a);
      }
      if InFlight(s.workers[w]) {
        StartsStay(s.row, OpOf(c, s, step), s.now, n);
      } else {
        assert s'.row.transitions[|s.row.transitions|].reason == StartAttempt(n);
      }
    }
  }

  lemma StepKeepsInv(c: Config, s: State, step: Step)
    requires Inv(s)
    ensures Inv(Apply(c, s, step))
  {
    StepFits(c, s, step);
    OpKeepsRow(s.row, OpOf(c, s, step), s.now);
    StepKeepsFenced(c, s, step);
    StepKeepsAnnounced(c, s, step);
  }

  /** Fencing and agreement of the two logs, over every run. */
  lemma {:induction false} Reachable(c: Config, run: Run)
    ensures Inv(After(c, run))
  {
    if run.Commit? {
      InitialRow(c.createdAt);
    } else {
      Reachable(c, run.before);
      StepKeepsInv(c, After(c, run.before), run.step);
    }
  }

  /** Numbers are exactly 1..attempt_count, and a further run only appends to both logs,
      so numbering continues across manual retries. */
  lemma {:induction false} AttemptsExtend(c: Config, run: Run, longer: Run)
    requires Extends(longer, run)
    ensures var r, r' := After(c, run).row, After(c, longer).row;
            && Numbered(r') && r.attempts <= r'.attempts && r.transitions <= r'.transitions
  {
    Reachable(c, longer);
    if longer != run {
      AttemptsExtend(c, run, longer.before);
      var s := After(c, longer.before);
      OpAppends(s.row, OpOf(c, s, longer.step), s.now);
    }
  }

  // ----- the audit queries of scripts/invariants.sql -----

  /** I2: MAX(attempt_number) equals COUNT(*) when there is an attempt at all. */
  ghost predicate I2(r: Row) {
    r.attempts != [] ==>
      && (exists i | 0 <= i < |r.attempts| :: r.attempts[i].number == |r.attempts|)
      && (forall i | 0 <= i < |r.attempts| :: r.attempts[i].number <= |r.attempts|)
  }

  /** I3: attempt_count counts the attempt rows. */
  ghost predicate I3(r: Row) {
    r.attemptCount == |r.attempts|
  }

  /** I5: a DELIVERED row has a SUCCESS attempt. */
  ghost predicate I5(r: Row) {
    r.status.Delivered? ==> exists i | 0 <= i < |r.attempts| :: r.attempts[i].outcome.Success?
  }

  /** The last attempt row is the one the last reporting transition describes. */
  lemma LastReport(r: Row)
    requires RowInv(r) && (r.status.Delivered? || r.status.Failed?)
    ensures r.attempts != [] && r.status == StatusOf(r.attempts[|r.attempts| - 1].outcome)
  {
    var ts := r.transitions;
    assert ts == ts[..|ts| - 1] + [ts[|ts| - 1]];
    RecordedAppend(ts[..|ts| - 1], ts[|ts| - 1]);
  }

  lemma AuditQueriesEmpty(c: Config, run: Run)
    ensures var r := After(c, run).row; I2(r) && I3(r) && I5(r)
  {
    Reachable(c, run);
    var r := After(c, run).row;
    if r.attempts != [] {
      assert r.attempts[|r.attempts| - 1].number == |r.attempts|;
    }
    if r.status.Delivered? {
      LastReport(r);
    }
  }

  // ----- the DLQ as the listing sees it -----

  /** Rows that entered the DLQ, and rows a manual retry wrote. */
  function DlqEntries(ts: seq<Transition>): nat {
    if ts == [] then 0 else DlqEntries(ts[..|ts| - 1]) + (if ts[|ts| - 1].to.Dlq? then 1 else 0)
  }

  function ManualRetries(ts: seq<Transition>): nat {
    if ts == [] then 0 else ManualRetries(ts[..|ts| - 1]) + (if ts[|ts| - 1].reason == ManualRetry then 1 else 0)
  }

  /** Each retry consumes the entry right before it. */
  lemma {:induction false} RetriesWithinEntries(ts: seq<Transition>)
    requires RetriesFollowDlq(ts)
    ensures ManualRetries(ts) + (if ts != [] && ts[|ts| - 1].to.Dlq? then 1 else 0) <= DlqEntries(ts)
  {
    if ts != [] {
      var front := ts[..|ts| - 1];
      assert RetriesFollowDlq(front);
      RetriesWithinEntries(front);
    }
  }

  /** Concurrent manual retries succeed at most once per entry into the DLQ. */
  lemma RetryAtMostOncePerEntry(c: Config, run: Run)
    ensures var ts := After(c, run).row.transitions; ManualRetries(ts) <= DlqEntries(ts)
  {
    Reachable(c, run);
    RetriesWithinEntries(After(c, run).row.transitions);
  }
}
