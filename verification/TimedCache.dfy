/** The worker protocol with the timed cache in place of its own: every run of the one is a run of the
    other, in which evictions do what time does. */
module TimedCache {
  import opened Json
  import opened CacheKey
  import opened Cache
  import opened JobTable
  import opened Protocol
  import ProtocolTheorems

  type Timed = map<Digest, Entry<Fields>>

  /** What a store shows at a given time. */
  function View(store: Timed, now: nat): map<Digest, Fields> {
    map key | key in store && Alive(store[key], now) :: store[key].value
  }

  // --- The timed system ---

  /** The system, whose own cache plays no part, with a store and a clock. */
  datatype World = World(system: System, store: Timed, now: nat)

  const START := World(INITIAL, map[], 0)

  datatype TimedAction =
    | Wait(until: nat)
    | Get(p: ProcId, t: TaskId, fault: Fault)
    | Set(p: ProcId, t: TaskId, ttl: nat, fault: Fault)
    | Other(a: Action)

  predicate UsesCache(a: Action) {
    a.LookUp? || a.SetCache? || a.Evict?
  }

  function KeyAt(setup: Setup, s: System, p: ProcId, t: TaskId): Digest
    requires Running(s, p, t)
  {
    KeyOf(setup, TaskOf(s, p, t).doc, TaskOf(s, p, t).schema)
  }

  predicate TimedEnabled(setup: Setup, w: World, a: TimedAction) {
    match a
    case Wait(until) => w.now <= until
    case Get(p, t, _) => Running(w.system, p, t) && StageOf(w.system, p, t).Start?
    case Set(p, t, _, _) => Running(w.system, p, t) && StageOf(w.system, p, t).Store?
    case Other(a) => !UsesCache(a) && Enabled(setup, w.system, a)
  }

  function TimedNext(setup: Setup, w: World, a: TimedAction): World
    requires TimedEnabled(setup, w, a)
  {
    match a
    case Wait(until) => w.(now := until)
    case Get(p, t, fault) =>
      var found := LookedUp(w.store, KeyAt(setup, w.system, p, t), w.now, fault);
      w.(system := SetStage(w.system, p, t, if found.Found? then Finish(found.value) else WriteIngesting))
    case Set(p, t, ttl, fault) =>
      var result := StageOf(w.system, p, t).result;
      w.(system := SetStage(w.system, p, t, Finish(result)),
         store := Stored(w.store, KeyAt(setup, w.system, p, t), result, w.now, ttl, fault))
    case Other(a) => w.(system := Next(setup, w.system, a))
  }

  /** Time can always pass; a goroutine at the right stage can always look into the store or write to it; and
      whatever else the protocol can do, the timed system can. */
  lemma {:induction false} TimedSteps(setup: Setup, w: World, p: ProcId, t: TaskId, a: Action, ttl: nat, fault: Fault)
    ensures TimedEnabled(setup, w, Wait(w.now + ttl))
    ensures TimedNext(setup, w, Wait(w.now + ttl)) == w.(now := w.now + ttl)
    ensures Running(w.system, p, t) && TaskOf(w.system, p, t).stage == Start ==>
      TimedEnabled(setup, w, Get(p, t, fault))
    ensures Running(w.system, p, t) && TaskOf(w.system, p, t).stage.Store? ==>
      TimedEnabled(setup, w, Set(p, t, ttl, fault))
    ensures !a.LookUp? && !a.SetCache? && !a.Evict? && Enabled(setup, w.system, a) ==>
      TimedEnabled(setup, w, Other(a)) && TimedNext(setup, w, Other(a)) == w.(system := Next(setup, w.system, a))
  {
  }

  predicate TimedPossible(setup: Setup, w: World, run: seq<TimedAction>)
    decreases |run|
  {
    run == [] || (TimedEnabled(setup, w, run[0]) && TimedPossible(setup, TimedNext(setup, w, run[0]), run[1..]))
  }

  function TimedAfter(setup: Setup, w: World, run: seq<TimedAction>): World
    requires TimedPossible(setup, w, run)
    decreases |run|
  {
    if run == [] then w else TimedAfter(setup, TimedNext(setup, w, run[0]), run[1..])
  }

  // --- The protocol's system that a world stands for ---

  function Shown(w: World): System {
    w.system.(cache := View(w.store, w.now))
  }

  lemma {:induction false} EvictAll(setup: Setup, s: System, keys: set<Digest>) returns (run: seq<Action>)
    requires keys <= s.cache.Keys
    ensures Possible(setup, s, run) && Protocol.After(setup, s, run) == s.(cache := s.cache - keys)
    decreases keys
  {
    if keys == {} {
      run := [];
      assert s.cache - keys == s.cache;
    } else {
      var key :| key in keys;
      var s' := Next(setup, s, Evict(key));
      var rest := EvictAll(setup, s', keys - {key});
      run := [Evict(key)] + rest;
      assert run[1..] == rest;
      assert s'.cache - (keys - {key}) == s.cache - keys;
    }
  }

  /** Whatever time takes from the store, some run of evictions takes from the cache, and nothing else
      changes. */
  lemma {:induction false} TimePasses(setup: Setup, w: World, until: nat) returns (run: seq<Action>)
    requires w.now <= until
    ensures Possible(setup, Shown(w), run) && Protocol.After(setup, Shown(w), run) == Shown(w.(now := until))
  {
    var before, after := View(w.store, w.now), View(w.store, until);
    run := EvictAll(setup, Shown(w), before.Keys - after.Keys);
    assert before - (before.Keys - after.Keys) == after;
  }

  lemma {:induction false} One(setup: Setup, s: System, a: Action)
    requires Enabled(setup, s, a)
    ensures Possible(setup, s, [a]) && Protocol.After(setup, s, [a]) == Next(setup, s, a)
  {
    assert [a][1..] == [];
    assert Protocol.After(setup, Next(setup, s, a), []) == Next(setup, s, a);
  }

  /** A timed `Get` is a lookup: a hit exactly if a live value is found, and an error counts as a miss. */
  lemma {:induction false} GetIsLookUp(setup: Setup, w: World, p: ProcId, t: TaskId, fault: Fault)
    requires TimedEnabled(setup, w, Get(p, t, fault))
    ensures var a := LookUp(p, t, LookedUp(w.store, KeyAt(setup, w.system, p, t), w.now, fault).Found?);
      Enabled(setup, Shown(w), a) && Next(setup, Shown(w), a) == Shown(TimedNext(setup, w, Get(p, t, fault)))
  {
  }

  /** A timed `Set` is a store, lost exactly if the error comes before its effect. */
  lemma {:induction false} SetIsStore(setup: Setup, w: World, p: ProcId, t: TaskId, ttl: nat, fault: Fault)
    requires TimedEnabled(setup, w, Set(p, t, ttl, fault))
    ensures var a := SetCache(p, t, fault == Before);
      Enabled(setup, Shown(w), a) && Next(setup, Shown(w), a) == Shown(TimedNext(setup, w, Set(p, t, ttl, fault)))
  {
    var key, result := KeyAt(setup, w.system, p, t), StageOf(w.system, p, t).result;
    var store' := Stored(w.store, key, result, w.now, ttl, fault);
    assert View(store', w.now) == if fault == Before then View(w.store, w.now) else View(w.store, w.now)[key := result];
  }

  lemma {:induction false} OtherIsSame(setup: Setup, w: World, a: Action)
    requires TimedEnabled(setup, w, Other(a))
    ensures Enabled(setup, Shown(w), a) && Next(setup, Shown(w), a) == Shown(TimedNext(setup, w, Other(a)))
  {
  }

  lemma {:induction false} TimedStep(setup: Setup, w: World, a: TimedAction) returns (run: seq<Action>)
    requires TimedEnabled(setup, w, a)
    ensures Possible(setup, Shown(w), run)
    ensures Protocol.After(setup, Shown(w), run) == Shown(TimedNext(setup, w, a))
  {
    match a
    case Wait(until) =>
      run := TimePasses(setup, w, until);
    case Get(p, t, fault) =>
      GetIsLookUp(setup, w, p, t, fault);
      run := [LookUp(p, t, LookedUp(w.store, KeyAt(setup, w.system, p, t), w.now, fault).Found?)];
      One(setup, Shown(w), run[0]);
    case Set(p, t, ttl, fault) =>
      SetIsStore(setup, w, p, t, ttl, fault);
      run := [SetCache(p, t, fault == Before)];
      One(setup, Shown(w), run[0]);
    case Other(b) =>
      OtherIsSame(setup, w, b);
      run := [b];
      One(setup, Shown(w), run[0]);
  }

  /** Refinement: whatever the timed system does in a run, the protocol can do in one, and it comes to the
      same with the keys that are alive for its cache. */
  lemma {:induction false} TimedRunRefines(setup: Setup, w: World, run: seq<TimedAction>) returns (plain: seq<Action>)
    requires TimedPossible(setup, w, run)
    ensures Possible(setup, Shown(w), plain)
    ensures Protocol.After(setup, Shown(w), plain) == Shown(TimedAfter(setup, w, run))
    decreases |run|
  {
    if run == [] {
      plain := [];
    } else {
      var first := TimedStep(setup, w, run[0]);
      var rest := TimedRunRefines(setup, TimedNext(setup, w, run[0]), run[1..]);
      ProtocolTheorems.RunsJoin(setup, Shown(w), first, rest);
      plain := first + rest;
    }
  }

  /** So cache agreement holds with times to live: what a `Get` finds, at any moment of any timed run, was
      merged earlier for the identical document and schema. */
  lemma {:induction false} TimedHitsAgree(setup: Setup, run: seq<TimedAction>, p: ProcId, t: TaskId, fault: Fault)
    requires HashInjective(setup) && TimedPossible(setup, START, run)
    requires TimedEnabled(setup, TimedAfter(setup, START, run), Get(p, t, fault))
    ensures var w := TimedAfter(setup, START, run);
      var task, found := TaskOf(w.system, p, t), LookedUp(w.store, KeyAt(setup, w.system, p, t), w.now, fault);
      found.Found? ==> ProtocolTheorems.Justified(setup, w.system, task.doc, task.schema, found.value)
  {
    var w := TimedAfter(setup, START, run);
    var task, found := TaskOf(w.system, p, t), LookedUp(w.store, KeyAt(setup, w.system, p, t), w.now, fault);
    if found.Found? {
      var plain := TimedRunRefines(setup, START, run);
      assert Shown(START) == INITIAL;
      GetIsLookUp(setup, w, p, t, fault);
      ProtocolTheorems.HitsAgree(setup, plain, p, t);
      SameHistory(setup, Shown(w), w.system, task.doc, task.schema, found.value);
    }
  }

  lemma {:induction false} SameHistory(setup: Setup, s: System, s': System, doc: Bytes, schema: Bytes, result: Fields)
    requires s.assembled == s'.assembled && ProtocolTheorems.Justified(setup, s, doc, schema, result)
    ensures ProtocolTheorems.Justified(setup, s', doc, schema, result)
  {
    ProtocolTheorems.JustifiedStays(setup, s, s', doc, schema, result);
  }
}
