/** When the transition log is a path through the code's own state graph. */
module AuditPath {
  import opened Rows
  import opened Protocol
  import opened Fencing

  /** Each row leaves the status the previous row entered. */
  ghost predicate Connected(ts: seq<Transition>) {
    forall i | 1 <= i < |ts| :: ts[i].from == Some(ts[i - 1].to)
  }

  /** The from_status a writer passes is the status its update replaces. */
  ghost predicate PassesCurrent(r: Row, op: Op) {
    match op
    case Start(from, _) => from == r.status
    case Record(n, _, from, _) => NumberFree(r, n) ==> from == r.status
    case Bury(from) => from == r.status
    case _ => true
  }

  ghost predicate AlwaysCurrent(c: Config, run: Run) {
    run.Then? ==>
      && AlwaysCurrent(c, run.before)
      && PassesCurrent(After(c, run.before).row, OpOf(c, After(c, run.before), run.step))
  }

  lemma OpConnects(r: Row, op: Op, now: nat)
    requires RowInv(r)
    ensures Connected(ApplyOp(r, op, now).transitions) <==> Connected(r.transitions) && PassesCurrent(r, op)
  {
    var ts, ts' := r.transitions, ApplyOp(r, op, now).transitions;
    if |ts'| > |ts| {
      assert ts'[|ts| - 1] == ts[|ts| - 1];
      assert Connected(ts') ==> ts'[|ts|].from == Some(ts'[|ts| - 1].to);
      assert forall i | 0 <= i < |ts| :: ts'[i] == ts[i];
    }
  }

  /** The log is connected exactly when every writer passed the status it replaced. */
  lemma {:induction false} ConnectedIffCurrent(c: Config, run: Run)
    ensures Connected(After(c, run).row.transitions) <==> AlwaysCurrent(c, run)
  {
    if run.Then? {
      ConnectedIffCurrent(c, run.before);
      Reachable(c, run.before);
      var s := After(c, run.before);
      OpConnects(s.row, OpOf(c, s, run.step), s.now);
    }
  }

  // ----- a worker's view of the log -----

  /** What the row at `seen - 1` said when the worker last touched the log. */
  ghost predicate ViewTrue(ts: seq<Transition>, k: Worker) {
    && (InSection(k) || (k.exit.ThrewRecorded? && (k.pc.Leaving? || k.pc.Exiting?)) ==> 1 <= k.seen <= |ts|)
    && (InSection(k) && !InFlight(k) ==> ts[k.seen - 1].to == k.from)
    && (InFlight(k) ==> ts[k.seen - 1].to == Delivering)
    && (k.exit.ThrewRecorded? && (k.pc.Leaving? || k.pc.Exiting?) ==> ts[k.seen - 1].to == Failed)
  }

  ghost predicate ViewsTrue(s: State) {
    forall w | w in s.workers :: ViewTrue(s.row.transitions, s.workers[w])
  }

  lemma ViewGrows(ts: seq<Transition>, ts': seq<Transition>, k: Worker)
    requires ViewTrue(ts, k) && ts <= ts'
    ensures ViewTrue(ts', k)
  {
  }

  lemma MoveViews(c: Config, s: State, w: nat, a: Action)
    requires w in s.workers && RowInv(s.row) && ViewTrue(s.row.transitions, s.workers[w])
    requires MoveOf(c, s, w, a).next.Some?
    ensures ViewTrue(ApplyOp(s.row, MoveOf(c, s, w, a).op, s.now).transitions, MoveOf(c, s, w, a).next.value)
  {
    OpAppends(s.row, MoveOf(c, s, w, a).op, s.now);
    ViewGrows(s.row.transitions, ApplyOp(s.row, MoveOf(c, s, w, a).op, s.now).transitions, s.workers[w]);
  }

  lemma StepKeepsViews(c: Config, s: State, step: Step)
    requires RowInv(s.row) && ViewsTrue(s)
    ensures ViewsTrue(Apply(c, s, step))
  {
    var s' := Apply(c, s, step);
    OpAppends(s.row, OpOf(c, s, step), s.now);
    forall w | w in s'.workers
      ensures ViewTrue(s'.row.transitions, s'.workers[w])
    {
      WorkerOrigin(c, s, step, w);
      if step.Act? && step.w == w {
        MoveViews(c, s, w, step.a);
      } else if w in s.workers {
        ViewGrows(s.row.transitions, s'.row.transitions, s.workers[w]);
      }
    }
  }

  lemma {:induction false} ViewsReachable(c: Config, run: Run)
    ensures ViewsTrue(After(c, run))
  {
    if run.Then? {
      ViewsReachable(c, run.before);
      Reachable(c, run.before);
      StepKeepsViews(c, After(c, run.before), run.step);
    }
  }

  // ----- exclusive sections -----

  /** Nobody wrote the log between a worker's read and its writes, and the DLQ handler runs
      in one piece right after the recorded failure that exhausted its job. */
  ghost predicate Exclusive(c: Config, s: State, step: Step) {
    var op := OpOf(c, s, step);
    && (op.Start? || op.Record? || op.Bury? ==>
          step.w in s.workers && s.workers[step.w].seen == |s.row.transitions|)
    && (op.Bury? ==> step.a.Report? && s.workers[step.w].exit.ThrewRecorded?)
  }

  ghost predicate ExclusiveRun(c: Config, run: Run) {
    run.Then? ==> ExclusiveRun(c, run.before) && Exclusive(c, After(c, run.before), run.step)
  }

  /** The edges the code can write, CIRCUIT_OPEN and post-crash ones included. */
  predicate CodeEdge(from: Option<Status>, to: Status) {
    match to
    case Pending => from == None || from == Some(Dlq)
    case Delivering => from == Some(Pending) || from == Some(Failed) || from == Some(Delivering)
    case Failed => from == Some(Pending) || from == Some(Failed) || from == Some(Delivering)
    case Delivered => from == Some(Delivering)
    case Dlq => from == Some(Failed)
  }

  ghost predicate Edges(ts: seq<Transition>) {
    forall i | 0 <= i < |ts| :: CodeEdge(ts[i].from, ts[i].to)
  }

  lemma ExclusiveStep(c: Config, s: State, step: Step)
    requires Inv(s) && ViewsTrue(s) && Exclusive(c, s, step) && Edges(s.row.transitions)
    ensures PassesCurrent(s.row, OpOf(c, s, step))
    ensures Edges(Apply(c, s, step).row.transitions)
  {
    if step.Act? && step.w in s.workers {
      var w, a := step.w, step.a;
      MoveOp(c, s, w, a);
      assert ViewTrue(s.row.transitions, s.workers[w]);
      if s.workers[w].pc.Answered? && a.RecordWrite? {
        assert s.row.status == Delivering;
      }
    }
  }

  /** With exclusive sections the log is a path from NULL -> PENDING along the code's edges,
      and DELIVERED has no outgoing edge. */
  lemma {:induction false} ExclusiveRunsArePaths(c: Config, run: Run)
    requires ExclusiveRun(c, run)
    ensures var ts := After(c, run).row.transitions;
            && Connected(ts) && Edges(ts)
            && forall i | 0 <= i < |ts| - 1 :: ts[i].to != Delivered
  {
    if run.Then? {
      var s := After(c, run.before);
      ExclusiveRunsArePaths(c, run.before);
      Reachable(c, run.before);
      ViewsReachable(c, run.before);
      ExclusiveStep(c, s, run.step);
      OpConnects(s.row, OpOf(c, s, run.step), s.now);
    }
    var ts := After(c, run).row.transitions;
    forall i | 0 <= i < |ts| - 1
      ensures ts[i].to != Delivered
    {
      assert ts[i + 1].from == Some(ts[i].to);
    }
  }
}
