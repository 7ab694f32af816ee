/** The reconciler's sweeps over many deliveries, and the job ids they share with the API. */
module Reconciler {
  import opened Rows
  import Arith
  import P = Protocol

  type Table = map<nat, Row>

  function EligibleIds(t: Table, now: nat, grace: nat): set<nat> {
    set id | id in t && Eligible(t[id], now, grace)
  }

  /** One committed sweep flags and stamps what it claimed. */
  function Claim(t: Table, ids: set<nat>, now: nat): Table {
    map id | id in t :: if id in ids then FlagTx(t[id], now) else t[id]
  }

  function Min(a: nat, b: nat): nat {
    if a < b then a else b
  }

  // ----- successive and concurrent sweeps -----

  /** SKIP LOCKED serialises concurrent sweeps into a sequence of atomic ones, between which
      workers, the API and manual retries write rows. */
  datatype Event = Sweep(now: nat, claimed: set<nat>) | Write(id: nat, row: Row)

  function After(t: Table, es: seq<Event>): Table {
    if es == [] then t
    else
      var before, e := After(t, es[..|es| - 1]), es[|es| - 1];
      match e
      case Sweep(now, claimed) => Claim(before, claimed, now)
      case Write(id, row) => before[id := row]
  }

  function ClaimedBy(e: Event): set<nat> {
    if e.Sweep? then e.claimed else {}
  }

  function Claimed(es: seq<Event>): set<nat> {
    if es == [] then {} else Claimed(es[..|es| - 1]) + ClaimedBy(es[|es| - 1])
  }

  /** Each sweep claims as many eligible rows as the batch allows, in no particular order. */
  ghost predicate Sweeps(t: Table, es: seq<Event>, grace: nat, batch: nat) {
    es != [] ==>
      var front, e := es[..|es| - 1], es[|es| - 1];
      && Sweeps(t, front, grace, batch)
      && (e.Sweep? ==>
            var ids := EligibleIds(After(t, front), e.now, grace);
            e.claimed <= ids && |e.claimed| == Min(batch, |ids|))
  }

  /** Sweeps fall between `from` and `to`, and rows are stamped from `from` on. */
  ghost predicate Within(es: seq<Event>, from: nat, to: nat) {
    forall i | 0 <= i < |es| ::
      && (es[i].Sweep? ==> from <= es[i].now <= to)
      && (es[i].Write? ==> from <= es[i].row.updatedAt)
  }

  /** Nobody writes between the sweeps. */
  ghost predicate Quiet(es: seq<Event>) {
    forall i | 0 <= i < |es| :: es[i].Sweep?
  }

  lemma EligibleStays(r: Row, a: nat, b: nat, grace: nat)
    requires a <= b && Eligible(r, a, grace)
    ensures Eligible(r, b, grace)
  {
  }

  predicate StampedBy(r: Row, e: Event) {
    e.Sweep? && r.updatedAt == e.now
  }

  /** Sweeps touch the flag and the stamp of claimed rows and nothing else. */
  lemma {:induction false} SweepsKeepRows(t: Table, es: seq<Event>, id: nat)
    requires id in t && Quiet(es)
    ensures id in After(t, es)
    ensures var r := After(t, es)[id];
            && r == t[id].(enqueued := r.enqueued, updatedAt := r.updatedAt)
            && (id !in Claimed(es) ==> r == t[id])
            && (id in Claimed(es) ==> exists i :: 0 <= i < |es| && StampedBy(r, es[i]))
  {
    if es != [] {
      var front := es[..|es| - 1];
      SweepsKeepRows(t, front, id);
      if id in es[|es| - 1].claimed {
        assert StampedBy(After(t, es)[id], es[|es| - 1]);
      } else if id in Claimed(front) {
        var i :| 0 <= i < |front| && StampedBy(After(t, front)[id], front[i]);
        assert StampedBy(After(t, es)[id], es[i]);
      }
    }
  }

  lemma {:induction false} SweepsKeepKeys(t: Table, es: seq<Event>)
    requires Quiet(es)
    ensures After(t, es).Keys == t.Keys
  {
    if es != [] {
      SweepsKeepKeys(t, es[..|es| - 1]);
    }
  }

  /** A row claimed inside the window is stamped no earlier than its start, whoever writes it
      afterwards. */
  lemma {:induction false} ClaimedIsStamped(t: Table, es: seq<Event>, from: nat, to: nat, grace: nat, batch: nat,
                                            id: nat)
    requires Sweeps(t, es, grace, batch) && Within(es, from, to) && id in Claimed(es)
    ensures id in After(t, es) && from <= After(t, es)[id].updatedAt
  {
    var front, e := es[..|es| - 1], es[|es| - 1];
    if id in Claimed(front) {
      ClaimedIsStamped(t, front, from, to, grace, batch, id);
    } else {
      assert id in EligibleIds(After(t, front), e.now, grace);
    }
  }

  /** So it is not eligible again before `from + grace`. */
  lemma ClaimedNotEligible(t: Table, es: seq<Event>, from: nat, to: nat, now: nat, grace: nat, batch: nat)
    requires Sweeps(t, es, grace, batch) && Within(es, from, to) && now <= from + grace
    ensures EligibleIds(After(t, es), now, grace) !! Claimed(es)
  {
    forall id | id in Claimed(es)
      ensures id !in EligibleIds(After(t, es), now, grace)
    {
      ClaimedIsStamped(t, es, from, to, grace, batch, id);
    }
  }

  lemma {:induction false} ClaimedHas(es: seq<Event>, i: nat)
    requires i < |es|
    ensures ClaimedBy(es[i]) <= Claimed(es)
  {
    if i < |es| - 1 {
      ClaimedHas(es[..|es| - 1], i);
    }
  }

  /** No two sweeps inside one grace period claim the same delivery, whichever rows become
      eligible and whatever is written in between. */
  lemma {:induction false} SweepsAreDisjoint(t: Table, es: seq<Event>, i: nat, j: nat, from: nat, to: nat,
                                             grace: nat, batch: nat)
    requires Sweeps(t, es, grace, batch) && Within(es, from, to) && from <= to <= from + grace
    requires i < j < |es|
    ensures ClaimedBy(es[i]) !! ClaimedBy(es[j])
  {
    var front := es[..|es| - 1];
    if j == |es| - 1 {
      if es[j].Sweep? {
        ClaimedNotEligible(t, front, from, to, es[j].now, grace, batch);
        ClaimedHas(front, i);
      }
    } else {
      SweepsAreDisjoint(t, front, i, j, from, to, grace, batch);
    }
  }

  /** Inside one quiet grace period what a sweep may claim is what was eligible and not
      claimed. */
  lemma EligibleLeft(t: Table, es: seq<Event>, from: nat, to: nat, now: nat, grace: nat, batch: nat)
    requires Sweeps(t, es, grace, batch) && Quiet(es) && Within(es, from, to) && from <= now <= to <= from + grace
    requires EligibleIds(t, from, grace) == EligibleIds(t, to, grace)
    ensures EligibleIds(After(t, es), now, grace) == EligibleIds(t, from, grace) - Claimed(es)
  {
    SweepsKeepKeys(t, es);
    ClaimedNotEligible(t, es, from, to, now, grace, batch);
    var t' := After(t, es);
    forall id | id in t && id !in Claimed(es)
      ensures id in EligibleIds(t', now, grace) <==> id in EligibleIds(t, from, grace)
    {
      SweepsKeepRows(t, es, id);
      if Eligible(t[id], from, grace) {
        EligibleStays(t[id], from, now, grace);
      }
      if Eligible(t[id], now, grace) {
        EligibleStays(t[id], now, to, grace);
        assert id in EligibleIds(t, to, grace);
      }
    }
  }

  lemma SubsetSize(a: set<nat>, b: set<nat>)
    requires a <= b
    ensures |a| <= |b| && |b - a| == |b| - |a|
  {
    assert b == a + (b - a);
  }

  /** One more batch out of what is left. */
  lemma OneMoreBatch(total: nat, k: nat, batch: nat)
    requires k > 0
    ensures var before := Min(total, (k - 1) * batch); before + Min(batch, total - before) == Min(total, k * batch)
  {
    Arith.OneMore(k, batch);
  }

  /** k sweeps inside one grace period claim disjoint rows, min(N, k * batch) in all when N
      rows are eligible throughout and nobody else writes. */
  lemma {:induction false} SweepsClaimEachOnce(t: Table, es: seq<Event>, from: nat, to: nat, grace: nat, batch: nat)
    requires Sweeps(t, es, grace, batch) && Quiet(es) && Within(es, from, to) && from <= to <= from + grace
    requires EligibleIds(t, from, grace) == EligibleIds(t, to, grace)
    ensures Claimed(es) <= EligibleIds(t, from, grace)
    ensures |Claimed(es)| == Min(|EligibleIds(t, from, grace)|, |es| * batch)
    ensures es != [] ==> ClaimedBy(es[|es| - 1]) !! Claimed(es[..|es| - 1])
  {
    if es != [] {
      var front, e := es[..|es| - 1], es[|es| - 1];
      SweepsClaimEachOnce(t, front, from, to, grace, batch);
      EligibleLeft(t, front, from, to, e.now, grace, batch);
      SubsetSize(Claimed(front), EligibleIds(t, from, grace));
      assert |Claimed(front) + e.claimed| == |Claimed(front)| + |e.claimed|;
      OneMoreBatch(|EligibleIds(t, from, grace)|, |es|, batch);
    }
  }

  // ----- one delivery, on every run of the protocol -----

  /** The step is a sweep that claims the delivery. */
  predicate Claims(c: P.Config, s: P.State, step: P.Step) {
    step.Sweep? && Eligible(s.row, s.now, c.grace)
  }

  /** The sweeps of a run that claimed the delivery. */
  function ClaimCount(c: P.Config, run: P.Run): nat {
    match run
    case Commit => 0
    case Then(before, step) => ClaimCount(c, before) + (if Claims(c, P.After(c, before), step) then 1 else 0)
  }

  /** Time and stamp only move forward, and the stamp stays behind the clock. */
  lemma StampFollows(c: P.Config, s: P.State, step: P.Step)
    requires s.row.updatedAt <= s.now
    ensures var s' := P.Apply(c, s, step);
            && s.row.updatedAt <= s'.row.updatedAt <= s'.now && s.now <= s'.now
            && (Claims(c, s, step) ==> s'.row.updatedAt == s.now)
  {
    if step.Act? && step.w in s.workers {
      P.MoveOp(c, s, step.w, step.a);
    }
  }

  /** On every run claims of one delivery are more than a grace period apart, the first one
      that long after its creation. */
  lemma {:induction false} ClaimsAreSpaced(c: P.Config, run: P.Run)
    ensures var s := P.After(c, run);
            c.createdAt + ClaimCount(c, run) * (c.grace + 1) <= s.row.updatedAt <= s.now
  {
    if run.Then? {
      ClaimsAreSpaced(c, run.before);
      var s := P.After(c, run.before);
      StampFollows(c, s, run.step);
      if Claims(c, s, run.step) {
        Arith.OneMore(ClaimCount(c, run), c.grace + 1);
      }
    }
  }

  lemma {:induction false} StampStays(c: P.Config, run: P.Run, longer: P.Run)
    requires P.Extends(longer, run)
    ensures P.After(c, run).row.updatedAt <= P.After(c, longer).row.updatedAt
  {
    if longer != run {
      StampStays(c, run, longer.before);
      ClaimsAreSpaced(c, longer.before);
      StampFollows(c, P.After(c, longer.before), longer.step);
    }
  }

  /** After a claim the delivery is not eligible again for a grace period, whatever workers,
      the API, the handler and Redis do meanwhile. */
  lemma ClaimedOncePerGrace(c: P.Config, run: P.Run, longer: P.Run)
    requires Claims(c, P.After(c, run), P.Sweep) && P.Extends(longer, P.Then(run, P.Sweep))
    requires var s := P.After(c, longer); Eligible(s.row, s.now, c.grace)
    ensures P.After(c, run).now + c.grace < P.After(c, longer).now
  {
    ClaimsAreSpaced(c, run);
    StampFollows(c, P.After(c, run), P.Sweep);
    StampStays(c, P.Then(run, P.Sweep), longer);
  }

  /** What a claim asks of a row, by status: a PENDING row is past its grace period, a FAILED
      one is also past its retry time, and no other row is ever claimed. */
  predicate WaitedLongEnough(r: Row, now: nat, grace: nat) {
    match r.status
    case Pending => now > r.updatedAt + grace
    case Failed => now > r.updatedAt + grace && (match r.nextAttemptAt case Some(at) => now > at case None => false)
    case Delivering => false
    case Delivered => false
    case Dlq => false
  }

  lemma DueRows(t: Table, now: nat, grace: nat)
    ensures forall id | id in t :: id in EligibleIds(t, now, grace) <==> WaitedLongEnough(t[id], now, grace)
  {
  }

  // ----- as code -----

  lemma ClaimOne(t: Table, ids: set<nat>, id: nat, now: nat)
    requires id in t && id !in ids
    ensures var c := Claim(t, ids, now); c[id := FlagTx(c[id], now)] == Claim(t, ids + {id}, now)
  {
  }

  ghost predicate NoDuplicates(q: seq<nat>) {
    forall i, j | 0 <= i < j < |q| :: q[i] != q[j]
  }

  /** The queue kept what it had and gained only ids of `e`. */
  ghost predicate Grown(before: seq<nat>, after: seq<nat>, e: set<nat>) {
    && NoDuplicates(after)
    && (forall id | id in before :: id in after)
    && (forall id | id in after && id !in before :: id in e)
  }

  lemma GrownByOne(before: seq<nat>, q: seq<nat>, e: set<nat>, id: nat)
    requires Grown(before, q, e) && id in e
    ensures Grown(before, if id in q then q else q + [id], e)
  {
  }

  /** The ids handled so far are the first `i` picked ones, all of them queued. */
  ghost predicate Handled(picked: seq<nat>, i: nat, done: set<nat>, queue: seq<nat>) {
    && i <= |picked| && |done| == i
    && (forall id | id in done :: id in picked[..i] && id in queue)
  }

  lemma HandledOneMore(picked: seq<nat>, i: nat, done: set<nat>, queue: seq<nat>)
    requires Handled(picked, i, done, queue) && i < |picked| && NoDuplicates(picked)
    ensures picked[i] !in done
    ensures var id := picked[i];
            Handled(picked, i + 1, done + {id}, if id in queue then queue else queue + [id])
  {
    assert picked[..i + 1] == picked[..i] + [picked[i]];
  }

  /** The deliveries table and the ids present in the queue, live or retained. */
  class Store {
    var rows: Table
    var queue: seq<nat>

    constructor (rows: Table)
      ensures this.rows == rows && queue == []
    {
      this.rows := rows;
      queue := [];
    }

    /** `queue.add` under the delivery's id: a no-op when the id is present. */
    method Add(id: nat)
      requires NoDuplicates(queue)
      modifies this`queue
      ensures NoDuplicates(queue) && id in queue
      ensures queue == if id in old(queue) then old(queue) else old(queue) + [id]
    {
      if id !in queue {
        queue := queue + [id];
      }
    }

    /** `enqueueDelivery`: add, then flag; either may be lost to a crash or an error. */
    method EnqueueDelivery(id: nat, now: nat, addFails: bool, flagFails: bool)
      requires NoDuplicates(queue)
      modifies this
      ensures NoDuplicates(queue)
      ensures addFails ==> queue == old(queue) && rows == old(rows)
      ensures !addFails ==> queue == if id in old(queue) then old(queue) else old(queue) + [id]
      ensures !addFails ==> rows == if flagFails then old(rows) else Claim(old(rows), {id}, now)
    {
      if addFails {
        return;
      }
      Add(id);
      if flagFails {
        return;
      }
      if id in rows {
        rows := rows[id := FlagTx(rows[id], now)];
      }
      assert rows == Claim(old(rows), {id}, now);
    }

    /** The SELECT: some eligible rows, as many as there are up to the limit. */
    method Pick(limit: nat, now: nat, grace: nat) returns (picked: seq<nat>)
      ensures NoDuplicates(picked) && forall id | id in picked :: id in EligibleIds(rows, now, grace)
      ensures |picked| == Min(limit, |EligibleIds(rows, now, grace)|)
      ensures forall id | id in picked :: id in rows && WaitedLongEnough(rows[id], now, grace)
    {
      DueRows(rows, now, grace);
      picked := [];
      var rest := EligibleIds(rows, now, grace);
      while |picked| < limit && rest != {}
        invariant rest <= EligibleIds(rows, now, grace) && NoDuplicates(picked)
        invariant forall id | id in picked :: id in EligibleIds(rows, now, grace) && id !in rest
        invariant |picked| <= limit && |picked| + |rest| == |EligibleIds(rows, now, grace)|
        decreases rest
      {
        var id :| id in rest;
        picked := picked + [id];
        rest := rest - {id};
      }
    }

    /** The loop of adds and updates; a throw at index `failAt` rolls the updates back. */
    method AddPicked(picked: seq<nat>, now: nat, failAt: Option<nat>, ghost e: set<nat>)
      returns (done: Option<set<nat>>)
      requires NoDuplicates(queue) && NoDuplicates(picked) && e <= rows.Keys && forall id | id in picked :: id in e
      modifies this
      ensures Grown(old(queue), queue, e)
      ensures done.None? <==> failAt.Some? && failAt.value < |picked|
      ensures done.None? ==> rows == old(rows)
      ensures done.Some? ==>
                && Handled(picked, |picked|, done.value, queue) && done.value <= e
                && rows == Claim(old(rows), done.value, now)
    {
      var begun, ids, i := rows, {}, 0;
      while i < |picked|
        invariant Grown(old(queue), queue, e) && Handled(picked, i, ids, queue) && ids <= e
        invariant rows == Claim(begun, ids, now)
        invariant failAt.Some? ==> i <= failAt.value || |picked| <= failAt.value
      {
        if failAt == Some(i) {
          rows := begun;
          return None;
        }
        var id := picked[i];
        assert id in picked;
        GrownByOne(old(queue), queue, e, id);
        HandledOneMore(picked, i, ids, queue);
        ClaimOne(begun, ids, id, now);
        Add(id);
        rows := rows[id := FlagTx(rows[id], now)];
        ids := ids + {id};
        i := i + 1;
      }
      return Some(ids);
    }

    /** `claimUnenqueued`: one transaction around the SELECT and the loop.  When the add at
        index `failAt` throws, the updates roll back and the earlier adds stay. */
    method ClaimUnenqueued(limit: nat, now: nat, grace: nat, failAt: Option<nat>)
      returns (claimed: Option<set<nat>>)
      requires NoDuplicates(queue)
      modifies this
      ensures NoDuplicates(queue)
      ensures forall id | id in old(queue) :: id in queue
      ensures forall id | id in queue && id !in old(queue) :: id in EligibleIds(old(rows), now, grace)
      ensures claimed.None? <==> failAt.Some? && failAt.value < Min(limit, |EligibleIds(old(rows), now, grace)|)
      ensures claimed.None? ==> rows == old(rows)
      ensures claimed.Some? ==>
                && claimed.value <= EligibleIds(old(rows), now, grace)
                && |claimed.value| == Min(limit, |EligibleIds(old(rows), now, grace)|)
                && rows == Claim(old(rows), claimed.value, now)
                && forall id | id in claimed.value :: id in queue
      ensures claimed.Some? ==>
                && (forall id | id in claimed.value :: id in old(rows) && WaitedLongEnough(old(rows)[id], now, grace))
                && (|claimed.value| < limit ==>
                      forall id | id in old(rows) && WaitedLongEnough(old(rows)[id], now, grace) :: id in claimed.value)
    {
      ghost var e := EligibleIds(rows, now, grace);
      ghost var t := rows;
      var picked := Pick(limit, now, grace);
      claimed := AddPicked(picked, now, failAt, EligibleIds(rows, now, grace));
      DueRows(t, now, grace);
      if claimed.Some? && |claimed.value| < limit {
        SubsetSize(claimed.value, e);
        assert e - claimed.value == {};
      }
    }
  }
}
