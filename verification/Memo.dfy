/** `memoTtl`: a TTL cache that shares the call in flight. */
module Memo {
  import opened Rows
  import Arith

  datatype Cached = Cached(value: nat, expiresAt: nat)

  /** The two closure variables, and what happened outside them: the clock, how many
      underlying calls are running, when the running one started, the start times of the
      calls that succeeded, and the last result with its time. */
  datatype State = State(cached: Option<Cached>, pending: bool, now: nat, running: nat, startedAt: nat,
                         succeeded: seq<nat>, last: Option<(nat, nat)>)

  datatype Step = Tick(to: nat) | Call | Resolve(value: nat) | Reject

  datatype Reply = Served(value: nat) | Shared | Started

  function ReplyOf(cached: Option<Cached>, pending: bool, now: nat): Reply {
    if cached.Some? && cached.value.expiresAt > now then Served(cached.value.value)
    else if pending then Shared
    else Started
  }

  /** A step that cannot happen (no call to settle, a clock going back) changes nothing. */
  function Apply(s: State, step: Step, ttl: nat): State {
    match step
    case Tick(to) => if to >= s.now then s.(now := to) else s
    case Call =>
      if ReplyOf(s.cached, s.pending, s.now).Started?
      then s.(pending := true, running := s.running + 1, startedAt := s.now) else s
    case Resolve(v) =>
      if s.running == 0 then s
      else s.(cached := Some(Cached(v, s.now + ttl)), pending := false, running := s.running - 1,
              succeeded := s.succeeded + [s.startedAt], last := Some((v, s.now)))
    case Reject => if s.running == 0 then s else s.(pending := false, running := s.running - 1)
  }

  datatype Run = Empty | Then(before: Run, step: Step)

  function After(run: Run, ttl: nat): State {
    match run
    case Empty => State(None, false, 0, 0, 0, [], None)
    case Then(before, step) => Apply(After(before, ttl), step, ttl)
  }

  ghost predicate Inv(s: State, ttl: nat) {
    && s.running == (if s.pending then 1 else 0)
    && (s.cached.Some? <==> s.last.Some?) && (s.cached.Some? <==> s.succeeded != [])
    && (s.cached.Some? ==>
          && s.cached.value.value == s.last.value.0 && s.cached.value.expiresAt == s.last.value.1 + ttl
          && s.succeeded[|s.succeeded| - 1] <= s.last.value.1)
    && (s.pending ==> s.startedAt <= s.now && (s.cached.Some? ==> s.cached.value.expiresAt <= s.startedAt))
    && (forall i | 0 <= i < |s.succeeded| - 1 :: s.succeeded[i] + ttl <= s.succeeded[i + 1])
  }

  lemma {:induction false} Reachable(run: Run, ttl: nat)
    ensures Inv(After(run, ttl), ttl)
  {
    if run.Then? {
      Reachable(run.before, ttl);
    }
  }

  /** At most one underlying call is running. */
  lemma AtMostOneCall(run: Run, ttl: nat)
    ensures After(run, ttl).running <= 1
  {
    Reachable(run, ttl);
  }

  /** A served value is the latest result and less than the TTL old. */
  lemma ServedIsFresh(run: Run, ttl: nat)
    ensures var s := After(run, ttl);
            var r := ReplyOf(s.cached, s.pending, s.now);
            r.Served? ==> s.last.Some? && r.value == s.last.value.0 && s.now < s.last.value.1 + ttl
  {
    Reachable(run, ttl);
  }

  lemma {:induction false} Spaced(starts: seq<nat>, i: nat, j: nat, ttl: nat)
    requires i <= j < |starts|
    requires forall k | 0 <= k < |starts| - 1 :: starts[k] + ttl <= starts[k + 1]
    ensures starts[i] + (j - i) * ttl <= starts[j]
    decreases j - i
  {
    if i < j {
      Spaced(starts, i, j - 1, ttl);
      assert starts[j - 1] + ttl <= starts[j - 1 + 1];
      Arith.OneMore(j - i, ttl);
    }
  }

  /** Successful calls start at least a TTL apart: if the i-th to the j-th start inside a
      window of length `w`, they are at most w / ttl + 1. */
  lemma WindowBound(run: Run, ttl: nat, a: nat, w: nat, i: nat, j: nat)
    requires ttl > 0 && i <= j < |After(run, ttl).succeeded|
    requires a <= After(run, ttl).succeeded[i] && After(run, ttl).succeeded[j] <= a + w
    ensures j - i + 1 <= w / ttl + 1
  {
    Reachable(run, ttl);
    Spaced(After(run, ttl).succeeded, i, j, ttl);
    Arith.FitsQuotient(j - i, w, ttl);
  }

  /** The times at which a call started the underlying function. */
  function StartTimes(run: Run, ttl: nat): set<nat> {
    match run
    case Empty => {}
    case Then(before, step) =>
      var s := After(before, ttl);
      StartTimes(before, ttl) + (if step.Call? && ReplyOf(s.cached, s.pending, s.now).Started? then {s.now} else {})
  }

  /** The starts the bound counts are starts. */
  lemma {:induction false} SucceededStarted(run: Run, ttl: nat)
    ensures var s := After(run, ttl);
            && (s.pending ==> s.startedAt in StartTimes(run, ttl))
            && forall i | 0 <= i < |s.succeeded| :: s.succeeded[i] in StartTimes(run, ttl)
  {
    if run.Then? {
      SucceededStarted(run.before, ttl);
      Reachable(run.before, ttl);
    }
  }

  class MemoTtl {
    const ttl: nat
    var cached: Option<Cached>
    var pending: bool

    constructor (ttl: nat)
      ensures this.ttl == ttl && cached == None && !pending
    {
      this.ttl := ttl;
      cached, pending := None, false;
    }

    /** Starts the underlying function only on a miss with nothing in flight. */
    method Call(now: nat) returns (r: Reply)
      modifies this
      ensures r == ReplyOf(old(cached), old(pending), now)
      ensures old(cached).Some? && now < old(cached).value.expiresAt ==> r == Served(old(cached).value.value)
      ensures old(cached).None? || old(cached).value.expiresAt <= now ==> r == if old(pending) then Shared else Started
      ensures cached == old(cached) && (pending <==> old(pending) || r.Started?)
    {
      if cached.Some? && cached.value.expiresAt > now {
        return Served(cached.value.value);
      }
      if pending {
        return Shared;
      }
      pending := true;
      return Started;
    }

    method Resolved(value: nat, now: nat)
      modifies this
      ensures cached == Some(Cached(value, now + ttl)) && !pending
    {
      cached := Some(Cached(value, now + ttl));
      pending := false;
    }

    /** A failure is not cached: an older value, if any, stays as it was. */
    method Rejected()
      modifies this
      ensures cached == old(cached) && !pending
    {
      pending := false;
    }
  }
}
