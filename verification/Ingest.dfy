/** Idempotent ingestion: a lossy Redis cache in front of a unique constraint. */
module Ingest {
  import opened Rows

  // ----- the cache key -----

  function RedisKey(client: string, key: string): string {
    "wh:idem:" + client + ":" + key
  }

  /** The API rejects an empty key and one of more than 255 characters. */
  predicate ValidKey(key: string) {
    1 <= |key| <= 255
  }

  /** One id followed by ':' starts the other, and the rest fits into a key: the separator is
      ambiguous. */
  predicate Clash(a: string, b: string) {
    (a + ":" <= b && |b| < |a| + 255) || (b + ":" <= a && |a| < |b| + 255)
  }

  ghost predicate ClashFree(clients: set<string>) {
    forall a, b | a in clients && b in clients :: !Clash(a, b)
  }

  lemma SameKeyShorter(a: string, k: string, b: string, l: string)
    requires RedisKey(a, k) == RedisKey(b, l) && |a| < |b| && ValidKey(k) && ValidKey(l)
    ensures a + ":" <= b && |b| < |a| + 255
  {
    var s := RedisKey(a, k);
    assert |RedisKey(a, k)| == 9 + |a| + |k| && |RedisKey(b, l)| == 9 + |b| + |l|;
    forall i | 0 <= i <= |a|
      ensures (a + ":")[i] == b[i]
    {
      assert s[8 + i] == (a + ":")[i];
      assert s[8 + i] == b[i];
    }
  }

  /** Two distinct clients can share a cache key exactly when their ids clash. */
  lemma SharedKeyIffClash(a: string, b: string)
    requires a != b
    ensures (exists k: string, l: string :: ValidKey(k) && ValidKey(l) && RedisKey(a, k) == RedisKey(b, l))
            <==> Clash(a, b)
  {
    if k: string, l: string :| ValidKey(k) && ValidKey(l) && RedisKey(a, k) == RedisKey(b, l) {
      ClashOf(a, k, b, l);
    }
    if a + ":" <= b && |b| < |a| + 255 {
      SharedKey(a, b);
    } else if Clash(a, b) {
      SharedKey(b, a);
    }
  }

  lemma ClashOf(a: string, k: string, b: string, l: string)
    requires a != b && ValidKey(k) && ValidKey(l) && RedisKey(a, k) == RedisKey(b, l)
    ensures Clash(a, b)
  {
    if |a| < |b| {
      SameKeyShorter(a, k, b, l);
    } else if |b| < |a| {
      SameKeyShorter(b, l, a, k);
    } else {
      SameKeyInjective(a, k, b, l);
    }
  }

  lemma SharedKey(a: string, b: string)
    requires a + ":" <= b && |b| < |a| + 255
    ensures exists k: string, l: string :: ValidKey(k) && ValidKey(l) && RedisKey(a, k) == RedisKey(b, l)
    ensures exists k: string, l: string :: ValidKey(k) && ValidKey(l) && RedisKey(b, l) == RedisKey(a, k)
  {
    var k := b[|a| + 1..] + ":" + "x";
    assert b == a + ":" + b[|a| + 1..];
    assert RedisKey(a, k) == RedisKey(b, "x");
    assert ValidKey(k) && ValidKey("x");
  }

  lemma SameKeyInjective(a: string, k: string, b: string, l: string)
    requires RedisKey(a, k) == RedisKey(b, l) && |a| == |b|
    ensures a == b && k == l
  {
    var s, t := RedisKey(a, k), RedisKey(b, l);
    assert s[8..8 + |a|] == a && t[8..8 + |b|] == b;
    assert s[9 + |a|..] == k && t[9 + |b|..] == l;
  }

  /** Without clashes a cache key determines client and idempotency key. */
  lemma ClashFreeInjective(a: string, k: string, b: string, l: string)
    requires !Clash(a, b) && ValidKey(k) && ValidKey(l) && RedisKey(a, k) == RedisKey(b, l)
    ensures a == b && k == l
  {
    if a != b {
      ClashOf(a, k, b, l);
    } else {
      SameKeyInjective(a, k, b, l);
    }
  }

  /** Ids without ':' never clash. */
  lemma ColonFreeIsClashFree(clients: set<string>)
    requires forall a | a in clients :: ':' !in a
    ensures ClashFree(clients)
  {
    forall a, b | a in clients && b in clients
      ensures !Clash(a, b)
    {
      assert (a + ":")[|a|] == ':' && (b + ":")[|b|] == ':';
    }
  }

  // ----- tables -----

  /** An event, and for the record the call that inserted it; ids are row positions. */
  datatype EventRow = EventRow(client: string, key: string, creator: nat)

  datatype Tables = Tables(events: seq<EventRow>, deliveries: seq<nat>)

  /** The row the unique constraint finds. */
  function FindEvent(events: seq<EventRow>, client: string, key: string): (r: Option<nat>)
    ensures r.Some? ==> r.value < |events| && events[r.value].client == client && events[r.value].key == key
    ensures r.None? ==> forall i | 0 <= i < |events| :: events[i].client != client || events[i].key != key
  {
    if events == [] then None
    else
      var n := |events| - 1;
      if events[n].client == client && events[n].key == key then Some(n) else FindEvent(events[..n], client, key)
  }

  /** `SELECT ... FROM deliveries WHERE event_id = e LIMIT 1`. */
  function FindDelivery(deliveries: seq<nat>, e: nat): (r: Option<nat>)
    ensures r.Some? ==> r.value < |deliveries| && deliveries[r.value] == e
    ensures r.None? ==> forall i | 0 <= i < |deliveries| :: deliveries[i] != e
  {
    if deliveries == [] then None
    else
      var n := |deliveries| - 1;
      if deliveries[n] == e then Some(n) else FindDelivery(deliveries[..n], e)
  }

  datatype Answer = Answer(event: nat, delivery: nat, isNew: bool)

  /** The transaction; no answer means a non-null assertion failed and it rolled back. */
  function IngestTx(t: Tables, client: string, key: string, caller: nat): (Tables, Option<Answer>) {
    var found := FindEvent(t.events, client, key);
    if found.None? then
      var e, d := |t.events|, |t.deliveries|;
      (Tables(t.events + [EventRow(client, key, caller)], t.deliveries + [e]), Some(Answer(e, d, true)))
    else
      var d := FindDelivery(t.deliveries, found.value);
      if d.None? then (t, None) else (t, Some(Answer(found.value, d.value, false)))
  }

  // ----- interleaved calls -----

  datatype Pc =
    | Begun                              // about to GET
    | Hit(event: nat)                    // about to look the cached event up
    | Missed                             // about to run the transaction
    | Committed(answer: Answer)          // COMMIT done, nothing returned yet
    | Replied(answer: Answer, owed: bool) // answered; `owed` while the cache write is pending
    | NullDeref                          // a non-null assertion failed

  predicate HasAnswer(pc: Pc) {
    pc.Committed? || pc.Replied?
  }

  datatype Call = Call(client: string, key: string, pc: Pc)

  /** `dead` are the calls that ended without an answer. */
  datatype State = State(t: Tables, cache: map<string, nat>, calls: map<nat, Call>, dead: set<nat>)

  datatype Step =
    | Begin(id: nat, client: string, key: string)
    | Get(id: nat)
    | Lookup(id: nat)
    | Tx(id: nat)
    | Reply(id: nat)
    | SetCache(id: nat)
    | Lose(k: string)
    | Die(id: nat)

  function Apply(s: State, step: Step): State {
    match step
    case Begin(id, client, key) =>
      if id in s.calls || id in s.dead || !ValidKey(key) then s
      else s.(calls := s.calls[id := Call(client, key, Begun)])
    case Get(id) =>
      if id !in s.calls || !s.calls[id].pc.Begun? then s
      else
        var c := s.calls[id];
        var k := RedisKey(c.client, c.key);
        s.(calls := s.calls[id := c.(pc := if k in s.cache then Hit(s.cache[k]) else Missed)])
    case Lookup(id) =>
      if id !in s.calls || !s.calls[id].pc.Hit? then s
      else
        var c := s.calls[id];
        var d := FindDelivery(s.t.deliveries, c.pc.event);
        var pc := if d.None? then Missed else Replied(Answer(c.pc.event, d.value, false), false);
        s.(calls := s.calls[id := c.(pc := pc)])
    case Tx(id) =>
      if id !in s.calls || !s.calls[id].pc.Missed? then s
      else
        var c := s.calls[id];
        var (t', a) := IngestTx(s.t, c.client, c.key, id);
        s.(t := t', calls := s.calls[id := c.(pc := if a.None? then NullDeref else Committed(a.value))])
    case Reply(id) =>
      if id !in s.calls || !s.calls[id].pc.Committed? then s
      else s.(calls := s.calls[id := s.calls[id].(pc := Replied(s.calls[id].pc.answer, true))])
    case SetCache(id) =>
      if id !in s.calls || !s.calls[id].pc.Replied? || !s.calls[id].pc.owed then s
      else
        var c := s.calls[id];
        s.(cache := s.cache[RedisKey(c.client, c.key) := c.pc.answer.event],
           calls := s.calls[id := c.(pc := c.pc.(owed := false))])
    case Lose(k) => s.(cache := s.cache - {k})
    case Die(id) =>
      if id in s.calls && !s.calls[id].pc.Replied? then s.(calls := s.calls - {id}, dead := s.dead + {id}) else s
  }

  datatype Run = Empty | Then(before: Run, step: Step)

  function After(run: Run): State {
    match run
    case Empty => State(Tables([], []), map[], map[], {})
    case Then(before, step) => Apply(After(before), step)
  }

  ghost predicate ClientsIn(run: Run, clients: set<string>) {
    run.Then? ==> ClientsIn(run.before, clients) && (run.step.Begin? ==> run.step.client in clients)
  }

  // ----- invariant -----

  ghost predicate TablesInv(t: Tables) {
    && (forall i, j | 0 <= i < j < |t.events| ::
          t.events[i].client != t.events[j].client || t.events[i].key != t.events[j].key)
    && |t.deliveries| == |t.events|
    && (forall i | 0 <= i < |t.events| :: ValidKey(t.events[i].key))
    && forall i | 0 <= i < |t.deliveries| :: t.deliveries[i] == i
  }

  /** Event `e` is the one of this client and key. */
  ghost predicate Owns(t: Tables, e: nat, client: string, key: string) {
    e < |t.events| && t.events[e].client == client && t.events[e].key == key
  }

  ghost predicate CacheSound(t: Tables, cache: map<string, nat>, clients: set<string>) {
    forall k | k in cache ::
      cache[k] < |t.events| && t.events[cache[k]].client in clients
      && k == RedisKey(t.events[cache[k]].client, t.events[cache[k]].key)
  }

  ghost predicate CallSound(t: Tables, id: nat, c: Call, clients: set<string>) {
    && c.client in clients && ValidKey(c.key) && !c.pc.NullDeref?
    && (c.pc.Hit? ==> Owns(t, c.pc.event, c.client, c.key))
    && (HasAnswer(c.pc) ==>
          && Owns(t, c.pc.answer.event, c.client, c.key) && c.pc.answer.delivery == c.pc.answer.event
          && (c.pc.answer.isNew <==> t.events[c.pc.answer.event].creator == id))
  }

  /** The call that inserted event `e` knows it, or is dead. */
  ghost predicate Created(s: State, e: nat)
    requires e < |s.t.events|
  {
    var o := s.t.events[e].creator;
    o in s.dead || (o in s.calls && HasAnswer(s.calls[o].pc) && s.calls[o].pc.answer.event == e)
  }

  ghost predicate Inv(s: State, clients: set<string>) {
    && TablesInv(s.t) && CacheSound(s.t, s.cache, clients)
    && (forall id | id in s.calls :: id !in s.dead && CallSound(s.t, id, s.calls[id], clients))
    && (forall e | 0 <= e < |s.t.events| :: Created(s, e))
  }

  lemma TxSound(t: Tables, client: string, key: string, caller: nat)
    requires TablesInv(t) && ValidKey(key)
    ensures var (t', a) := IngestTx(t, client, key, caller);
            && TablesInv(t') && t.events <= t'.events && a.Some?
            && Owns(t', a.value.event, client, key) && a.value.delivery == a.value.event
            && (if a.value.isNew then |t'.events| == |t.events| + 1 && a.value.event == |t.events|
                                      && t'.events[|t.events|].creator == caller
                else t' == t)
  {
    var found := FindEvent(t.events, client, key);
    if found.Some? {
      assert t.deliveries[found.value] == found.value;
    }
  }

  lemma TxKeepsInv(s: State, id: nat, clients: set<string>)
    requires Inv(s, clients) && id in s.calls && s.calls[id].pc.Missed?
    ensures Inv(Apply(s, Tx(id)), clients)
  {
    var c := s.calls[id];
    TxSound(s.t, c.client, c.key, id);
    var s' := Apply(s, Tx(id));
    assert forall i | 0 <= i < |s.t.events| :: s'.t.events[i] == s.t.events[i];
    forall e | 0 <= e < |s.t.events|
      ensures s.t.events[e].creator != id && Created(s', e)
    {
      assert Created(s, e);
    }
    forall o | o in s'.calls
      ensures o !in s'.dead && CallSound(s'.t, o, s'.calls[o], clients)
    {
      assert CallSound(s.t, o, s.calls[o], clients);
    }
  }

  /** A step that leaves the tables alone and moves only call `id`. */
  lemma MoveKeepsInv(s: State, s': State, id: nat, clients: set<string>)
    requires Inv(s, clients) && s'.t == s.t && CacheSound(s.t, s'.cache, clients)
    requires s.dead <= s'.dead <= s.dead + {id}
    requires forall o | o in s'.calls && o != id :: o in s.calls && s'.calls[o] == s.calls[o]
    requires forall o | o in s.calls && o != id :: o in s'.calls
    requires id in s'.calls ==> id !in s'.dead && CallSound(s.t, id, s'.calls[id], clients)
    requires id in s.calls && HasAnswer(s.calls[id].pc) ==>
               id in s'.dead || (id in s'.calls && HasAnswer(s'.calls[id].pc)
                                 && s'.calls[id].pc.answer.event == s.calls[id].pc.answer.event)
    ensures Inv(s', clients)
  {
    forall o | o in s'.calls
      ensures o !in s'.dead && CallSound(s'.t, o, s'.calls[o], clients)
    {
      if o != id {
        assert CallSound(s.t, o, s.calls[o], clients);
      }
    }
    forall e | 0 <= e < |s'.t.events|
      ensures Created(s', e)
    {
      assert Created(s, e);
    }
  }

  /** A cache hit names the caller's own event. */
  lemma HitIsOwn(s: State, id: nat, clients: set<string>)
    requires Inv(s, clients) && ClashFree(clients) && id in s.calls
    requires RedisKey(s.calls[id].client, s.calls[id].key) in s.cache
    ensures Owns(s.t, s.cache[RedisKey(s.calls[id].client, s.calls[id].key)], s.calls[id].client, s.calls[id].key)
  {
    var c := s.calls[id];
    var k := RedisKey(c.client, c.key);
    assert CallSound(s.t, id, c, clients);
    var e := s.t.events[s.cache[k]];
    assert !Clash(c.client, e.client);
    ClashFreeInjective(c.client, c.key, e.client, e.key);
  }

  lemma GetKeepsInv(s: State, id: nat, clients: set<string>)
    requires Inv(s, clients) && ClashFree(clients) && id in s.calls && s.calls[id].pc.Begun?
    ensures Inv(Apply(s, Get(id)), clients)
  {
    assert CallSound(s.t, id, s.calls[id], clients);
    if RedisKey(s.calls[id].client, s.calls[id].key) in s.cache {
      HitIsOwn(s, id, clients);
    }
    MoveKeepsInv(s, Apply(s, Get(id)), id, clients);
  }

  lemma LookupKeepsInv(s: State, id: nat, clients: set<string>)
    requires Inv(s, clients) && id in s.calls && s.calls[id].pc.Hit?
    ensures Inv(Apply(s, Lookup(id)), clients)
  {
    assert CallSound(s.t, id, s.calls[id], clients);
    assert Created(s, s.calls[id].pc.event);
    MoveKeepsInv(s, Apply(s, Lookup(id)), id, clients);
  }

  lemma SetCacheKeepsInv(s: State, id: nat, clients: set<string>)
    requires Inv(s, clients) && id in s.calls && s.calls[id].pc.Replied? && s.calls[id].pc.owed
    ensures Inv(Apply(s, SetCache(id)), clients)
  {
    assert CallSound(s.t, id, s.calls[id], clients);
    MoveKeepsInv(s, Apply(s, SetCache(id)), id, clients);
  }

  /** Beginnings, answers, deaths and cache losses. */
  lemma RestKeepsInv(s: State, step: Step, clients: set<string>)
    requires Inv(s, clients) && (step.Begin? ==> step.client in clients)
    requires step.Begin? || step.Reply? || step.Die? || step.Lose?
    ensures Inv(Apply(s, step), clients)
  {
    if step.Lose? {
      MoveKeepsInv(s, Apply(s, step), 0, clients);
    } else if step.Begin? || step.id in s.calls {
      MoveKeepsInv(s, Apply(s, step), step.id, clients);
    }
  }

  lemma StepKeepsInv(s: State, step: Step, clients: set<string>)
    requires Inv(s, clients) && ClashFree(clients) && (step.Begin? ==> step.client in clients)
    ensures Inv(Apply(s, step), clients)
  {
    if step.Begin? || step.Reply? || step.Die? || step.Lose? {
      RestKeepsInv(s, step, clients);
    } else if Apply(s, step) != s {
      match step
      case Get(id) => GetKeepsInv(s, id, clients);
      case Lookup(id) => LookupKeepsInv(s, id, clients);
      case Tx(id) => TxKeepsInv(s, id, clients);
      case SetCache(id) => SetCacheKeepsInv(s, id, clients);
    }
  }

  lemma {:induction false} Reachable(run: Run, clients: set<string>)
    requires ClashFree(clients) && ClientsIn(run, clients)
    ensures Inv(After(run), clients)
  {
    if run.Then? {
      Reachable(run.before, clients);
      StepKeepsInv(After(run.before), run.step, clients);
    }
  }

  // ----- the theorem -----

  lemma AnswerIsDatabase(s: State, clients: set<string>, a: nat)
    requires Inv(s, clients) && a in s.calls && HasAnswer(s.calls[a].pc)
    ensures var c := s.calls[a];
            && FindEvent(s.t.events, c.client, c.key) == Some(c.pc.answer.event)
            && FindDelivery(s.t.deliveries, c.pc.answer.event) == Some(c.pc.answer.delivery)
            && c.pc.answer.event < |s.t.events|
            && (c.pc.answer.isNew <==> a == s.t.events[c.pc.answer.event].creator)
  {
    var c := s.calls[a];
    assert CallSound(s.t, a, c, clients);
    assert s.t.deliveries[c.pc.answer.event] == c.pc.answer.event;
  }

  /** In any interleaving, with any cache losses, any two answered calls for one client and
      key get the same ids, those of the database. */
  lemma SameAnswer(run: Run, clients: set<string>, a: nat, b: nat)
    requires ClashFree(clients) && ClientsIn(run, clients)
    requires var s := After(run);
             && a in s.calls && s.calls[a].pc.Replied? && b in s.calls && s.calls[b].pc.Replied?
             && s.calls[a].client == s.calls[b].client && s.calls[a].key == s.calls[b].key
    ensures var s := After(run);
            var x, y := s.calls[a].pc.answer, s.calls[b].pc.answer;
            && x.event == y.event && x.delivery == y.delivery
            && FindEvent(s.t.events, s.calls[a].client, s.calls[a].key) == Some(x.event)
            && FindDelivery(s.t.deliveries, x.event) == Some(x.delivery)
  {
    Reachable(run, clients);
    AnswerIsDatabase(After(run), clients, a);
    AnswerIsDatabase(After(run), clients, b);
  }

  /** Among the calls for an event exactly its creator is told is_new; the creator is among
      them, unless it died between its COMMIT and its answer. */
  lemma ExactlyOneIsNew(run: Run, clients: set<string>, a: nat) returns (creator: nat)
    requires ClashFree(clients) && ClientsIn(run, clients)
    requires a in After(run).calls && After(run).calls[a].pc.Replied?
    ensures var s := After(run);
            var e := s.calls[a].pc.answer.event;
            && e < |s.t.events| && creator == s.t.events[e].creator
            && (s.calls[a].pc.answer.isNew <==> a == creator)
            && (creator !in s.dead ==>
                  && creator in s.calls && HasAnswer(s.calls[creator].pc) && s.calls[creator].pc.answer.isNew
                  && s.calls[creator].client == s.calls[a].client && s.calls[creator].key == s.calls[a].key)
  {
    var s := After(run);
    Reachable(run, clients);
    AnswerIsDatabase(s, clients, a);
    var e := s.calls[a].pc.answer.event;
    creator := s.t.events[e].creator;
    assert Created(s, e);
    if creator !in s.dead {
      AnswerIsDatabase(s, clients, creator);
      assert CallSound(s.t, creator, s.calls[creator], clients);
    }
  }

  /** With no hypothesis at all, clashing clients included: the tables keep one event per
      client and key and one delivery per event, and no non-null assertion fails. */
  lemma {:induction false} OneEventOneDelivery(run: Run)
    ensures TablesInv(After(run).t)
    ensures forall id | id in After(run).calls ::
              !After(run).calls[id].pc.NullDeref? && ValidKey(After(run).calls[id].key)
  {
    if run.Then? {
      OneEventOneDelivery(run.before);
      var s, step := After(run.before), run.step;
      if step.Tx? && step.id in s.calls {
        TxSound(s.t, s.calls[step.id].client, s.calls[step.id].key, step.id);
      }
    }
  }

  /** One client's call up to the cache write, then another's from a cache hit. */
  function FirstCall(a: string, k: string): Run {
    Then(Then(Then(Empty, Begin(1, a, k)), Get(1)), Tx(1))
  }

  function FirstCached(a: string, k: string): Run {
    Then(Then(FirstCall(a, k), Reply(1)), SetCache(1))
  }

  function LeakRun(a: string, k: string, b: string, l: string): Run {
    Then(Then(Then(FirstCached(a, k), Begin(2, b, l)), Get(2)), Lookup(2))
  }

  lemma FirstCallStates(a: string, k: string)
    requires ValidKey(k)
    ensures After(FirstCall(a, k)) ==
            State(Tables([EventRow(a, k, 1)], [0]), map[], map[1 := Call(a, k, Committed(Answer(0, 0, true)))], {})
    ensures ClientsIn(FirstCall(a, k), {a})
  {
    var r1 := Then(Empty, Begin(1, a, k));
    assert After(r1) == State(Tables([], []), map[], map[1 := Call(a, k, Begun)], {});
    var r2 := Then(r1, Get(1));
    assert After(r2) == State(Tables([], []), map[], map[1 := Call(a, k, Missed)], {});
    assert ClientsIn(r1, {a});
  }

  lemma FirstCachedStates(a: string, k: string)
    requires ValidKey(k)
    ensures After(FirstCached(a, k)) ==
            State(Tables([EventRow(a, k, 1)], [0]), map[RedisKey(a, k) := 0],
                  map[1 := Call(a, k, Replied(Answer(0, 0, true), false))], {})
    ensures ClientsIn(FirstCached(a, k), {a})
  {
    FirstCallStates(a, k);
    var r1 := Then(FirstCall(a, k), Reply(1));
    assert After(r1).calls == map[1 := Call(a, k, Replied(Answer(0, 0, true), true))];
    assert ClientsIn(r1, {a});
  }

  lemma {:induction false} MoreClients(run: Run, some: set<string>, more: set<string>)
    requires ClientsIn(run, some) && some <= more
    ensures ClientsIn(run, more)
  {
    if run.Then? {
      MoreClients(run.before, some, more);
    }
  }

  /** The hypothesis is exact: clashing clients have a run in which the second client, with
      a key of its own, is answered with the first client's event. */
  lemma ClashLeaks(a: string, b: string) returns (run: Run, k: string, l: string)
    requires a != b && Clash(a, b)
    ensures ValidKey(k) && ValidKey(l) && ClientsIn(run, {a, b})
    ensures var s := After(run);
            && 1 in s.calls && s.calls[1].client == a && s.calls[1].key == k
            && 2 in s.calls && s.calls[2] == Call(b, l, Replied(Answer(0, 0, false), false))
            && s.t.events == [EventRow(a, k, 1)]
  {
    SharedKeyIffClash(a, b);
    k, l :| ValidKey(k) && ValidKey(l) && RedisKey(a, k) == RedisKey(b, l);
    run := LeakRun(a, k, b, l);
    FirstCachedStates(a, k);
    MoreClients(FirstCached(a, k), {a}, {a, b});
    Leaks(FirstCached(a, k), After(FirstCached(a, k)), a, b, k, l);
  }

  lemma Leaks(run: Run, s: State, a: string, b: string, k: string, l: string)
    requires s == After(run) && ClientsIn(run, {a, b}) && ValidKey(l) && RedisKey(a, k) == RedisKey(b, l)
    requires 2 !in s.calls && 2 !in s.dead && RedisKey(b, l) in s.cache && s.cache[RedisKey(b, l)] == 0
    requires s.t.deliveries == [0]
    ensures var more := Then(Then(Then(run, Begin(2, b, l)), Get(2)), Lookup(2));
            && After(more) == s.(calls := s.calls[2 := Call(b, l, Replied(Answer(0, 0, false), false))])
            && ClientsIn(more, {a, b})
  {
    var r1 := Then(run, Begin(2, b, l));
    assert After(r1) == s.(calls := s.calls[2 := Call(b, l, Begun)]);
    var r2 := Then(r1, Get(2));
    assert After(r2) == s.(calls := s.calls[2 := Call(b, l, Hit(0))]);
    assert FindDelivery([0], 0) == Some(0);
    assert ClientsIn(r1, {a, b}) && ClientsIn(r2, {a, b});
  }

  // ----- as code -----

  class IngestStore {
    var events: seq<EventRow>
    var deliveries: seq<nat>
    var cache: map<string, nat>

    function View(): Tables
      reads this
    {
      Tables(events, deliveries)
    }

    constructor ()
      ensures View() == Tables([], []) && cache == map[]
    {
      events, deliveries, cache := [], [], map[];
    }

    /** Whether or not the cache answers, tables and answer are those of the transaction. */
    method IngestEvent(client: string, key: string, caller: nat, ghost clients: set<string>)
      returns (answer: Option<Answer>)
      requires TablesInv(View()) && CacheSound(View(), cache, clients) && ClashFree(clients) && client in clients
      requires ValidKey(key)
      modifies this
      ensures (View(), answer) == IngestTx(old(View()), client, key, caller) && answer.Some?
      ensures TablesInv(View()) && CacheSound(View(), cache, clients)
      ensures old(cache).Keys <= cache.Keys
    {
      TxSound(View(), client, key, caller);
      var k := RedisKey(client, key);
      if k in cache {
        var cached := cache[k];
        ClashFreeInjective(client, key, events[cached].client, events[cached].key);
        assert deliveries[cached] == cached;
        var row := FindDelivery(deliveries, cached);
        if row.Some? {
          return Some(Answer(cached, row.value, false));
        }
      }
      var found := FindEvent(events, client, key);
      var eventId, deliveryId, isNew;
      if found.None? {
        eventId, isNew := |events|, true;
        events := events + [EventRow(client, key, caller)];
        deliveryId := |deliveries|;
        deliveries := deliveries + [eventId];
      } else {
        eventId, isNew := found.value, false;
        var row := FindDelivery(deliveries, eventId);
        assert deliveries[eventId] == eventId;
        deliveryId := row.value;
      }
      cache := cache[k := eventId];
      return Some(Answer(eventId, deliveryId, isNew));
    }
  }
}
