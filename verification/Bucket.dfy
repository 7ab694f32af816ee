/** The per-endpoint in-flight cap: a Redis counter whose missing key counts as full. */
module Bucket {
  import opened Rows

  /** The `tokens` field, or nothing when the key does not exist. */
  type Tokens = Option<int>

  function Effective(t: Tokens, max: nat): int {
    if t.None? then max else t.value
  }

  /** token_bucket.lua: nothing is stored when no token is left. */
  function Taken(t: Tokens, max: nat): Tokens {
    if Effective(t, max) <= 0 then t else Some(Effective(t, max) - 1)
  }

  /** HINCRBY starts a missing field at zero, not at the cap. */
  function Incremented(t: Tokens): int {
    (if t.None? then 0 else t.value) + 1
  }

  // ----- all interleavings of takers and releasers -----

  /** `holders` have a token; a worker in `capping` has done HINCRBY, which returned the
      mapped value, and has yet to compare it with the cap; `leaked` tokens belong to
      workers that died. */
  datatype State = State(tokens: Tokens, holders: set<nat>, capping: map<nat, int>, leaked: nat)

  datatype Step =
    | Take(w: nat)
    | Incr(w: nat)
    | Cap(w: nat)
    | Crash(w: nat)
    | KeyExpires

  function Apply(s: State, step: Step, max: nat): State {
    match step
    case Take(w) =>
      if w in s.holders || w in s.capping || Effective(s.tokens, max) <= 0 then s
      else s.(tokens := Taken(s.tokens, max), holders := s.holders + {w})
    case Incr(w) =>
      if w !in s.holders then s
      else s.(tokens := Some(Incremented(s.tokens)), holders := s.holders - {w},
              capping := s.capping[w := Incremented(s.tokens)])
    case Cap(w) =>
      if w !in s.capping then s
      else s.(tokens := if s.capping[w] > max then Some(max) else s.tokens, capping := s.capping - {w})
    case Crash(w) =>
      if w in s.holders then s.(holders := s.holders - {w}, leaked := s.leaked + 1)
      else s.(capping := s.capping - {w})
    case KeyExpires => s.(tokens := None, leaked := 0)
  }

  datatype Run = Empty | Then(before: Run, step: Step)

  function After(run: Run, max: nat): State {
    match run
    case Empty => State(None, {}, map[], 0)
    case Then(before, step) => Apply(After(before, max), step, max)
  }

  /** The idle TTL never runs out while a token is held. */
  ghost predicate NeverExpiresHeld(run: Run, max: nat) {
    run.Then? ==>
      NeverExpiresHeld(run.before, max) && (run.step.KeyExpires? ==> After(run.before, max).holders == {})
  }

  /** Nothing is created or lost, and no HINCRBY has gone over the cap. */
  ghost predicate Conserved(s: State, max: nat) {
    && Effective(s.tokens, max) + |s.holders| + s.leaked == max
    && Effective(s.tokens, max) >= 0
    && (s.holders != {} || s.leaked > 0 ==> s.tokens.Some?)
    && forall w | w in s.capping :: s.capping[w] <= max
  }

  lemma StepConserves(s: State, step: Step, max: nat)
    requires Conserved(s, max) && (step.KeyExpires? ==> s.holders == {})
    ensures Conserved(Apply(s, step, max), max)
  {
    match step
    case Take(w) =>
      if w !in s.holders {
        assert |s.holders + {w}| == |s.holders| + 1;
      }
    case Incr(w) =>
      if w in s.holders {
        assert |s.holders - {w}| == |s.holders| - 1;
      }
    case Crash(w) =>
      if w in s.holders {
        assert |s.holders - {w}| == |s.holders| - 1;
      }
    case _ =>
  }

  /** Effective tokens + holders + leaked tokens is the cap in every reachable state, so
      holders never exceed it. */
  lemma {:induction false} TokensConserved(run: Run, max: nat)
    requires NeverExpiresHeld(run, max)
    ensures Conserved(After(run, max), max) && |After(run, max).holders| <= max
  {
    if run.Then? {
      TokensConserved(run.before, max);
      StepConserves(After(run.before, max), run.step, max);
    }
  }

  /** The over-cap branch of release() never fires. */
  lemma CapBranchDead(run: Run, max: nat, w: nat)
    requires NeverExpiresHeld(run, max)
    ensures var s := After(run, max);
            (w in s.capping ==> s.capping[w] <= max) && Apply(s, Cap(w), max).tokens == s.tokens
  {
    TokensConserved(run, max);
  }

  /** One expiry conserves tokens if and only if none is held. */
  lemma ExpiryConservesIff(s: State, max: nat)
    requires Conserved(s, max)
    ensures Conserved(Apply(s, KeyExpires, max), max) <==> s.holders == {}
  {
    if s.holders != {} {
      var w :| w in s.holders;
      assert |s.holders| >= |{w}|;
    }
  }

  /** No worker dies between its HINCRBY and the comparison with the cap. */
  ghost predicate NoCrash(run: Run) {
    run.Then? ==> NoCrash(run.before) && !run.step.Crash?
  }

  /** Whatever expired when: more tokens than the cap are there only while some releaser is
      about to reset them, and it resets them to the cap exactly. */
  lemma {:induction false} OverCapIsTransient(run: Run, max: nat)
    requires NoCrash(run)
    ensures var s := After(run, max);
            && (Effective(s.tokens, max) > max ==> exists w :: w in s.capping && s.capping[w] > max)
            && (forall w | w in s.capping && s.capping[w] > max :: Apply(s, Cap(w), max).tokens == Some(max as int))
  {
    if run.Then? {
      OverCapIsTransient(run.before, max);
      var s, s' := After(run.before, max), After(run, max);
      if Effective(s'.tokens, max) > max {
        if run.step.Incr? && run.step.w in s.holders {
          assert s'.capping[run.step.w] > max;
        } else {
          var w :| w in s.capping && s.capping[w] > max;
          assert w in s'.capping && s'.capping[w] > max;
        }
      }
    }
  }

  ghost predicate ConservedThroughout(run: Run, max: nat) {
    Conserved(After(run, max), max) && (run.Then? ==> ConservedThroughout(run.before, max))
  }

  /** A run conserves tokens throughout if and only if the key never expires while a token is
      held. */
  lemma {:induction false} ConservedIffNeverExpiresHeld(run: Run, max: nat)
    ensures ConservedThroughout(run, max) <==> NeverExpiresHeld(run, max)
  {
    if run.Then? {
      ConservedIffNeverExpiresHeld(run.before, max);
      if NeverExpiresHeld(run.before, max) {
        TokensConserved(run.before, max);
        if run.step.KeyExpires? {
          ExpiryConservesIff(After(run.before, max), max);
        } else {
          StepConserves(After(run.before, max), run.step, max);
        }
      }
    }
  }

  /** The bucket does not correct itself: after an expiry with one token held, the holder's
      release leaves a single token in an idle bucket, whatever the cap. */
  lemma ReleaseAfterExpiryShrinks(w: nat, max: nat)
    requires max >= 2
    ensures var s := After(Then(Then(Then(Then(Empty, Take(w)), KeyExpires), Incr(w)), Cap(w)), max);
            s.holders == {} && Effective(s.tokens, max) == 1
  {
    var a := Then(Empty, Take(w));
    assert After(a, max) == State(Some(max - 1), {w}, map[], 0) by {
      assert After(Empty, max) == State(None, {}, map[], 0);
    }
    assert After(Then(a, KeyExpires), max) == State(None, {w}, map[], 0);
    var b := Then(Then(a, KeyExpires), Incr(w));
    assert After(b, max).capping == map[w := 1] && After(b, max).tokens == Some(1);
    assert After(b, max).holders == {};
  }

  // ----- as code -----

  class TokenBucket {
    const max: nat
    var tokens: Tokens

    constructor (max: nat)
      ensures this.max == max && tokens == None
    {
      this.max := max;
      tokens := None;
    }

    method TryAcquire() returns (ok: bool)
      modifies this
      ensures ok <==> Effective(old(tokens), max) > 0
      ensures Effective(tokens, max) == Effective(old(tokens), max) - (if ok then 1 else 0)
      ensures tokens == Taken(old(tokens), max)
    {
      var left := if tokens.None? then max else tokens.value;
      if left <= 0 {
        return false;
      }
      tokens := Some(left - 1);
      return true;
    }

    /** Gives a token back; undoes `TryAcquire` unless the key vanished in between. */
    method Release()
      modifies this
      ensures old(tokens).Some? && old(tokens).value < max ==> tokens == Some(old(tokens).value + 1)
      ensures old(tokens).Some? && old(tokens).value >= max ==> tokens == Some(max)
      ensures old(tokens).None? ==> tokens == Some(if max >= 1 then 1 else 0)
    {
      var current := Incremented(tokens);
      tokens := Some(current);
      if current > max {
        tokens := Some(max);
      }
    }
  }
}
