/** The tables one delivery owns, and the transactions that write them.

    A transaction is one atomic change of the whole row.  Each is given twice: as a
    function on values, which the step system and the theorems use, and as a method of
    `DeliveryStore`, which performs the statements in the order of the code. */
module Rows {

  datatype Option<+T> = None | Some(value: T)

  datatype Status = Pending | Delivering | Delivered | Failed | Dlq

  predicate Terminal(s: Status) {
    s.Delivered? || s.Dlq?
  }

  datatype Outcome = Success | HttpError | Timeout | ConnError | CircuitOpen | LockLost

  /** The status `processDelivery` stores next to an outcome. */
  function StatusOf(o: Outcome): Status {
    if o.Success? then Delivered else Failed
  }

  /** The `reason` column.  It also determines the `actor` column. */
  datatype Reason = Created | StartAttempt(n: nat) | Result(outcome: Outcome) | Exhausted | ManualRetry

  datatype Attempt = Attempt(number: nat, outcome: Outcome)

  datatype Transition = Transition(from: Option<Status>, to: Status, reason: Reason, at: nat)

  /** One row of `deliveries` with its `delivery_attempts` and `delivery_transitions`,
      both in insertion order. */
  datatype Row = Row(
    status: Status,
    attemptCount: nat,
    nextAttemptAt: Option<nat>,
    enqueued: bool,
    updatedAt: nat,
    attempts: seq<Attempt>,
    transitions: seq<Transition>)

  // ----- transactions as functions -----

  /** The ingest transaction's inserts. */
  function NewRow(now: nat): Row {
    Row(Pending, 0, None, false, now, [], [Transition(None, Pending, Created, now)])
  }

  /** `transition()`: the update names only the id, so no status or lease guards it. */
  function TransitionTx(r: Row, from: Status, to: Status, reason: Reason, now: nat): Row {
    r.(status := to, updatedAt := now,
       transitions := r.transitions + [Transition(Some(from), to, reason, now)])
  }

  /** `uq_attempts` lets number `n` in. */
  predicate NumberFree(r: Row, n: nat) {
    forall i | 0 <= i < |r.attempts| :: r.attempts[i].number != n
  }

  /** `recordAttempt()`: a taken number aborts all three statements. */
  function RecordTx(r: Row, n: nat, outcome: Outcome, from: Status, to: Status, reason: Reason,
                    next: Option<nat>, now: nat): Row {
    if !NumberFree(r, n) then r else
      r.(status := to, attemptCount := r.attemptCount + 1, nextAttemptAt := next, updatedAt := now,
         attempts := r.attempts + [Attempt(n, outcome)],
         transitions := r.transitions + [Transition(Some(from), to, reason, now)])
  }

  /** `retryFromDlq()`: refused unless the row, locked by the select, is in the DLQ. */
  function RetryTx(r: Row, now: nat): Row {
    if r.status != Dlq then r else TransitionTx(r, Dlq, Pending, ManualRetry, now)
  }

  /** The `enqueued = true` update shared by `enqueueDelivery` and the reconciler. */
  function FlagTx(r: Row, now: nat): Row {
    r.(enqueued := true, updatedAt := now)
  }

  /** The reconciler's WHERE clause. */
  predicate Eligible(r: Row, now: nat, grace: nat) {
    && (r.status.Pending? || (r.status.Failed? && r.nextAttemptAt.Some? && r.nextAttemptAt.value < now))
    && r.updatedAt + grace < now
  }

  // ----- what any mix of these transactions keeps -----

  /** A transaction together with the arguments its caller computed. */
  datatype Op =
    | Noop
    | Start(from: Status, n: nat)
    | Record(n: nat, outcome: Outcome, from: Status, next: nat)
    | Bury(from: Status)
    | Retry
    | Flag

  function ApplyOp(r: Row, op: Op, now: nat): Row {
    match op
    case Noop => r
    case Start(from, n) => TransitionTx(r, from, Delivering, StartAttempt(n), now)
    case Record(n, o, from, next) =>
      RecordTx(r, n, o, from, StatusOf(o), Result(o), if o.Success? then None else Some(next), now)
    case Bury(from) => TransitionTx(r, from, Dlq, Exhausted, now)
    case Retry => RetryTx(r, now)
    case Flag => FlagTx(r, now)
  }

  /** The transition rows that report an attempt, in order. */
  function RecordedRows(ts: seq<Transition>): seq<Transition> {
    if ts == [] then [] else
      var t := ts[|ts| - 1];
      RecordedRows(ts[..|ts| - 1]) + (if t.to.Failed? || t.to.Delivered? then [t] else [])
  }

  /** The numbers are 1, 2, ..., attempt_count, inserted in that order. */
  ghost predicate Numbered(r: Row) {
    && |r.attempts| == r.attemptCount
    && forall i | 0 <= i < |r.attempts| :: r.attempts[i].number == i + 1
  }

  /** The transition log, restricted to reports, is the image of the attempt log. */
  ghost predicate Agreed(r: Row) {
    var rec := RecordedRows(r.transitions);
    && |rec| == |r.attempts|
    && forall i | 0 <= i < |rec| ::
         rec[i].to == StatusOf(r.attempts[i].outcome) && rec[i].reason == Result(r.attempts[i].outcome)
  }

  /** The log starts at NULL -> PENDING and its last row names the current status. */
  ghost predicate Current(r: Row) {
    && |r.transitions| > 0
    && r.transitions[0].from == None && r.transitions[0].to == Pending && r.transitions[0].reason == Created
    && r.transitions[|r.transitions| - 1].to == r.status
  }

  /** A manual retry leaves the DLQ, so its row directly follows a row that entered it. */
  ghost predicate RetriesFollowDlq(ts: seq<Transition>) {
    forall i | 0 <= i < |ts| && ts[i].reason == ManualRetry ::
      i > 0 && ts[i - 1].to == Dlq && ts[i].from == Some(Dlq) && ts[i].to == Pending
  }

  /** Every started attempt is at most one ahead of the recorded ones. */
  ghost predicate StartsBounded(r: Row) {
    forall i | 0 <= i < |r.transitions| && r.transitions[i].reason.StartAttempt? ::
      r.transitions[i].reason.n <= r.attemptCount + 1
  }

  ghost predicate RowInv(r: Row) {
    && Numbered(r)
    && Agreed(r)
    && Current(r)
    && RetriesFollowDlq(r.transitions)
    && StartsBounded(r)
    && (r.status.Failed? ==> r.nextAttemptAt.Some?)
  }

  /** The numbering every in-flight worker satisfies; see `Fencing.Fenced`. */
  ghost predicate Fits(r: Row, op: Op) {
    && (op.Record? ==> 1 <= op.n <= r.attemptCount + 1)
    && (op.Start? ==> 1 <= op.n <= r.attemptCount + 1)
  }

  lemma {:induction false} RecordedAppend(ts: seq<Transition>, t: Transition)
    ensures RecordedRows(ts + [t]) == RecordedRows(ts) + (if t.to.Failed? || t.to.Delivered? then [t] else [])
  {
    assert (ts + [t])[..|ts|] == ts;
  }

  /** With the numbers consecutive, the unique constraint admits exactly the next one. */
  lemma FreeIsNext(r: Row, n: nat)
    requires Numbered(r) && 1 <= n <= r.attemptCount + 1
    ensures NumberFree(r, n) <==> n == r.attemptCount + 1
  {
    if n <= r.attemptCount {
      assert r.attempts[n - 1].number == n;
    }
  }

  /** Every transaction whose number fits keeps the row's invariant. */
  lemma {:induction false} OpKeepsRow(r: Row, op: Op, now: nat)
    requires RowInv(r) && Fits(r, op)
    ensures RowInv(ApplyOp(r, op, now))
  {
    var r' := ApplyOp(r, op, now);
    if |r'.transitions| == |r.transitions| + 1 {
      RecordedAppend(r.transitions, r'.transitions[|r.transitions|]);
      assert r'.transitions == r.transitions + [r'.transitions[|r.transitions|]];
    }
    if op.Record? {
      FreeIsNext(r, op.n);
    }
  }

  /** Recording the next number stores the outcome with its status and time, and a retry time
      exactly for a failure: the one the caller computed. */
  lemma RecordStores(r: Row, o: Outcome, from: Status, next: nat, now: nat)
    requires RowInv(r)
    ensures var r' := ApplyOp(r, Record(r.attemptCount + 1, o, from, next), now);
            && (o == Success ==> r'.status == Delivered && r'.nextAttemptAt == None)
            && (o != Success ==> r'.status == Failed && r'.nextAttemptAt == Some(next))
            && r'.updatedAt == now && r'.attempts == r.attempts + [Attempt(r.attemptCount + 1, o)]
            && r'.transitions == r.transitions + [Transition(Some(from), r'.status, Result(o), now)]
  {
    FreeIsNext(r, r.attemptCount + 1);
  }

  lemma InitialRow(now: nat)
    ensures RowInv(NewRow(now))
  {
    var ts := NewRow(now).transitions;
    assert ts == [] + ts;
    RecordedAppend([], ts[0]);
  }

  /** Logs are append-only and the count never falls. */
  lemma OpAppends(r: Row, op: Op, now: nat)
    ensures var r' := ApplyOp(r, op, now);
            r.attempts <= r'.attempts && r.transitions <= r'.transitions && r.attemptCount <= r'.attemptCount
  {
  }

  // ----- transactions as code -----

  /** The mutable row.  A failed insert leaves every field as it was. */
  class DeliveryStore {
    var status: Status
    var attemptCount: nat
    var nextAttemptAt: Option<nat>
    var enqueued: bool
    var updatedAt: nat
    var attempts: seq<Attempt>
    var transitions: seq<Transition>

    function View(): Row
      reads this
    {
      Row(status, attemptCount, nextAttemptAt, enqueued, updatedAt, attempts, transitions)
    }

    constructor (now: nat)
      ensures View() == NewRow(now)
      ensures RowInv(View())
      ensures status == Pending && attemptCount == 0 && nextAttemptAt == None && !enqueued && updatedAt == now
      ensures attempts == [] && transitions == [Transition(None, Pending, Created, now)]
    {
      status, attemptCount, nextAttemptAt, enqueued, updatedAt := Pending, 0, None, false, now;
      attempts := [];
      transitions := [Transition(None, Pending, Created, now)];
      new;
      InitialRow(now);
    }

    method WriteTransition(from: Status, to: Status, reason: Reason, now: nat)
      modifies this
      ensures View() == TransitionTx(old(View()), from, to, reason, now)
      ensures status == to && updatedAt == now
      ensures transitions == old(transitions) + [Transition(Some(from), to, reason, now)]
      ensures attempts == old(attempts) && attemptCount == old(attemptCount)
      ensures nextAttemptAt == old(nextAttemptAt) && enqueued == old(enqueued)
    {
      status := to;
      updatedAt := now;
      transitions := transitions + [Transition(Some(from), to, reason, now)];
    }

    /** Three statements, all or nothing; `committed` is false on a unique violation. */
    method RecordAttempt(n: nat, outcome: Outcome, from: Status, to: Status, reason: Reason,
                         next: Option<nat>, now: nat) returns (committed: bool)
      modifies this
      ensures committed == NumberFree(old(View()), n)
      ensures View() == RecordTx(old(View()), n, outcome, from, to, reason, next, now)
      ensures !committed ==> View() == old(View())
      ensures committed ==>
                && status == to && attemptCount == old(attemptCount) + 1 && nextAttemptAt == next && updatedAt == now
                && attempts == old(attempts) + [Attempt(n, outcome)] && enqueued == old(enqueued)
                && transitions == old(transitions) + [Transition(Some(from), to, reason, now)]
    {
      var i := 0;
      while i < |attempts|
        invariant i <= |attempts|
        invariant forall k | 0 <= k < i :: attempts[k].number != n
      {
        if attempts[i].number == n {
          return false;
        }
        i := i + 1;
      }
      attempts := attempts + [Attempt(n, outcome)];
      status, attemptCount, nextAttemptAt, updatedAt := to, attemptCount + 1, next, now;
      transitions := transitions + [Transition(Some(from), to, reason, now)];
      return true;
    }

    /** `ok` is false when the delivery is not in the DLQ; nothing changes then. */
    method RetryFromDlq(now: nat) returns (ok: bool)
      modifies this
      ensures ok <==> old(status) == Dlq
      ensures View() == RetryTx(old(View()), now)
      ensures ok ==>
                && status == Pending && updatedAt == now && attempts == old(attempts)
                && attemptCount == old(attemptCount) && nextAttemptAt == old(nextAttemptAt) && enqueued == old(enqueued)
                && transitions == old(transitions) + [Transition(Some(Dlq), Pending, ManualRetry, now)]
      ensures !ok ==> View() == old(View())
    {
      if status != Dlq {
        return false;
      }
      status := Pending;
      updatedAt := now;
      transitions := transitions + [Transition(Some(Dlq), Pending, ManualRetry, now)];
      return true;
    }

    method MarkEnqueued(now: nat)
      modifies this
      ensures View() == FlagTx(old(View()), now)
      ensures enqueued && updatedAt == now
      ensures status == old(status) && attemptCount == old(attemptCount) && nextAttemptAt == old(nextAttemptAt)
      ensures attempts == old(attempts) && transitions == old(transitions)
    {
      enqueued := true;
      updatedAt := now;
    }
  }
}
