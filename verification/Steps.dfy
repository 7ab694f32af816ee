/** What the single steps of a worker do to the state, one lemma each, so that whole runs
    can be put together a few steps at a time. */
module Steps {
  import opened Rows
  import opened Protocol

  /** A step that moves only `w`, to stand as `k`. */
  function Put(s: State, w: nat, k: Worker): State {
    s.(workers := s.workers[w := k])
  }

  lemma PickupStates(c: Config, run: Run, s: State, w: nat, j: JobId)
    requires s == After(c, run) && w !in s.workers && j in s.jobs && s.jobs[j].Live? && s.jobs[j].owner == None
    ensures After(c, Then(run, Pickup(w, j))) ==
            Put(s, w, Fresh(j)).(jobs := s.jobs[j := s.jobs[j].(owner := Some(w))])
  {
  }

  lemma TickStates(c: Config, run: Run, s: State, to: nat)
    requires s == After(c, run) && s.now <= to
    ensures After(c, Then(run, Tick(to))) == s.(now := to)
  {
  }

  lemma WipeStates(c: Config, run: Run, s: State)
    requires s == After(c, run)
    ensures After(c, Then(run, Wipe)) == s.(lock := None, jobs := map[])
  {
  }

  /** A sweep that claims the delivery while its id is free. */
  lemma SweepStates(c: Config, run: Run, s: State)
    requires s == After(c, run) && Eligible(s.row, s.now, c.grace) && Original !in s.jobs
    ensures After(c, Then(run, Sweep)) ==
            s.(row := FlagTx(s.row, s.now), jobs := s.jobs[Original := Live(None, 0, 0)])
  {
  }

  lemma AcquireStates(c: Config, run: Run, s: State, w: nat, t: nat)
    requires s == After(c, run) && At(s, w, Started) && s.lock == None && t !in s.issued
    ensures After(c, Then(run, Act(w, Acquire(t)))) ==
            Put(s, w, s.workers[w].(pc := Locked, token := t)).(lock := Some(t), issued := s.issued + {t})
  {
  }

  lemma ContendStates(c: Config, run: Run, s: State, w: nat, t: nat)
    requires s == After(c, run) && At(s, w, Started) && s.lock != None && t !in s.issued
    ensures After(c, Then(run, Act(w, Acquire(t)))) ==
            Put(s, w, s.workers[w].(pc := Exiting, exit := Deferred)).(issued := s.issued + {t})
  {
  }

  lemma LookStates(c: Config, run: Run, s: State, w: nat, active: bool)
    requires s == After(c, run) && At(s, w, Locked)
    ensures After(c, Then(run, Act(w, Look(active)))) == Put(s, w, LookNext(s.row, s.workers[w], active))
  {
  }

  lemma CheckStates(c: Config, run: Run, s: State, w: nat, v: Verdict)
    requires s == After(c, run) && At(s, w, Looked)
    ensures After(c, Then(run, Act(w, Check(v)))) == Put(s, w, s.workers[w].(pc := if v.Open? then Tripped else Passed))
  {
  }

  lemma TakeStates(c: Config, run: Run, s: State, w: nat, ok: bool)
    requires s == After(c, run) && At(s, w, Passed)
    ensures After(c, Then(run, Act(w, Take(ok)))) ==
            Put(s, w, if ok then s.workers[w].(pc := Admitted) else s.workers[w].(pc := Leaving, exit := Deferred))
  {
  }

  /** The DELIVERING write. */
  function Dispatched(s: State, w: nat): State
    requires w in s.workers
  {
    var k := s.workers[w];
    Put(s, w, k.(pc := Calling, lockLost := false, seen := |s.row.transitions| + 1))
      .(row := ApplyOp(s.row, Start(k.from, k.n), s.now))
  }

  lemma StartStates(c: Config, run: Run, s: State, w: nat)
    requires s == After(c, run) && At(s, w, Admitted)
    ensures After(c, Then(run, Act(w, StartWrite))) == Dispatched(s, w)
  {
  }

  lemma BeatStates(c: Config, run: Run, s: State, w: nat)
    requires s == After(c, run) && At(s, w, Calling)
    ensures After(c, Then(run, Act(w, Beat))) ==
            Put(s, w, s.workers[w].(lockLost := s.workers[w].lockLost || s.lock != Some(s.workers[w].token)))
  {
  }

  lemma AnswerStates(c: Config, run: Run, s: State, w: nat, http: HttpResult)
    requires s == After(c, run) && At(s, w, Calling)
    ensures After(c, Then(run, Act(w, Answer(http)))) ==
            Put(s, w, s.workers[w].(pc := Answered, outcome := OutcomeOf(s.workers[w].lockLost, http)))
  {
  }

  lemma RecordStates(c: Config, run: Run, s: State, w: nat, next: nat)
    requires s == After(c, run) && (At(s, w, Tripped) || At(s, w, Answered))
    ensures var k, s' := s.workers[w], After(c, Then(run, Act(w, RecordWrite(next))));
            var o := if k.pc.Tripped? then CircuitOpen else k.outcome;
            && s' == Put(s, w, s'.workers[w]).(row := s'.row)
            && s'.row == ApplyOp(s.row, Record(k.n, o, if k.pc.Tripped? then k.from else Delivering, next), s.now)
            && At(s', w, Leaving) && s'.workers[w].job == k.job && s'.workers[w].token == k.token
            && (NumberFree(s.row, k.n) ==> s'.workers[w].exit == (if o.Success? then Returned else ThrewRecorded))
  {
  }

  lemma UnlockStates(c: Config, run: Run, s: State, w: nat)
    requires s == After(c, run) && At(s, w, Leaving)
    ensures After(c, Then(run, Act(w, Unlock))) ==
            Put(s, w, s.workers[w].(pc := Exiting))
              .(lock := if s.lock == Some(s.workers[w].token) then None else s.lock)
  {
  }

  /** A worker on its way out takes none of these steps, and one that saw the breaker open
      takes only the last. */
  lemma IdleStates(c: Config, run: Run, s: State, w: nat, a: Action)
    requires s == After(c, run)
    requires At(s, w, Leaving) || At(s, w, Exiting) || (At(s, w, Tripped) && !a.RecordWrite?)
    requires a.Look? || a.Check? || a.Take? || a.StartWrite? || a.Beat? || a.Answer? || a.RecordWrite?
    ensures After(c, Then(run, Act(w, a))) == s
  {
    assert s.workers[w := s.workers[w]] == s.workers;
  }
}
