/** What holds in every run of the worker protocol. */
module ProtocolTheorems {
  import opened Json
  import opened CacheKey
  import opened JobTable
  import opened Protocol
  import opened ProtocolInvariants
  import Merge

  // --- Where results come from ---

  /** A merge for this very document and schema took place and gave this result. */
  ghost predicate Justified(setup: Setup, s: System, doc: Bytes, schema: Bytes, result: Fields) {
    exists a ::
      a in s.assembled && a.doc == doc && a.schema == schema && a.results != [] && ResultOf(setup, a) == result
  }

  ghost predicate CacheEntryOk(setup: Setup, s: System, key: Digest)
    requires key in s.cache
  {
    exists doc, schema ::
      Lexical(schema) && KeyOf(setup, doc, schema) == key && Justified(setup, s, doc, schema, s.cache[key])
  }

  /** A goroutine that has results in hand has some, and one that has a merged result has a justified one. */
  ghost predicate StageJustified(setup: Setup, s: System, task: Task) {
    match task.stage
    case WriteAssembling(found) => found != []
    case Assemble(found) => found != []
    case Store(result) => Justified(setup, s, task.doc, task.schema, result)
    case Finish(result) => Justified(setup, s, task.doc, task.schema, result)
    case _ => true
  }

  ghost predicate RowJustified(setup: Setup, s: System, row: Row) {
    && Lexical(row.schema)
    && (row.status == Completed ==> row.result.Some? && Justified(setup, s, row.doc, row.schema, row.result.value))
  }

  ghost predicate Provenance(setup: Setup, s: System) {
    && (forall j :: j in s.table.rows ==> RowJustified(setup, s, s.table.rows[j]))
    && (forall key :: key in s.cache ==> CacheEntryOk(setup, s, key))
    && (forall p, t :: Running(s, p, t) ==> StageJustified(setup, s, TaskOf(s, p, t)))
  }

  lemma {:induction false} JustifiedStays(setup: Setup, s: System, s': System, doc: Bytes, schema: Bytes,
                                          result: Fields)
    requires s.assembled <= s'.assembled && Justified(setup, s, doc, schema, result)
    ensures Justified(setup, s', doc, schema, result)
  {
    var a :| a in s.assembled && a.doc == doc && a.schema == schema && a.results != [] && ResultOf(setup, a) == result;
    assert a in s'.assembled;
  }

  /** Agreement: with an injective hash, what is found under a job's key was merged for exactly that
      document and that schema. */
  lemma {:induction false} HitIsJustified(setup: Setup, s: System, doc: Bytes, schema: Bytes)
    requires HashInjective(setup) && Provenance(setup, s) && Lexical(schema)
    requires KeyOf(setup, doc, schema) in s.cache
    ensures Justified(setup, s, doc, schema, s.cache[KeyOf(setup, doc, schema)])
  {
    var key := KeyOf(setup, doc, schema);
    assert CacheEntryOk(setup, s, key);
    var doc', schema' :| Lexical(schema') && KeyOf(setup, doc', schema') == key
      && Justified(setup, s, doc', schema', s.cache[key]);
    FrameInjective(doc, schema, doc', schema');
  }

  lemma {:induction false} CacheKept(setup: Setup, s: System, s': System, key: Digest)
    requires s.assembled <= s'.assembled && key in s.cache && key in s'.cache && s'.cache[key] == s.cache[key]
    requires CacheEntryOk(setup, s, key)
    ensures CacheEntryOk(setup, s', key)
  {
    var doc, schema :|
      Lexical(schema) && KeyOf(setup, doc, schema) == key && Justified(setup, s, doc, schema, s.cache[key]);
    JustifiedStays(setup, s, s', doc, schema, s.cache[key]);
  }

  lemma {:induction false} RowStays(setup: Setup, s: System, s': System, row: Row)
    requires s.assembled <= s'.assembled && RowJustified(setup, s, row)
    ensures RowJustified(setup, s', row)
    ensures forall status :: status != Completed ==> RowJustified(setup, s', row.(status := status))
  {
    if row.status == Completed {
      JustifiedStays(setup, s, s', row.doc, row.schema, row.result.value);
    }
  }

  /** Only `Complete` writes anything but a row's status, and nothing else makes a row completed. */
  lemma {:induction false} RowFrame(setup: Setup, s: System, a: Action, j: JobId)
    requires Enabled(setup, s, a) && j in s.table.rows
    requires !(a.Complete? && TaskOf(s, a.p, a.t).job == j)
    ensures var s' := Next(setup, s, a);
      && j in s'.table.rows && s'.table.rows[j] == s.table.rows[j].(status := s'.table.rows[j].status)
      && (s'.table.rows[j].status == s.table.rows[j].status || s'.table.rows[j].status != Completed)
  {
    if !a.Submit? && !a.Commit? && !a.CommitUnheard? && !a.WriteStatus? && !a.Complete? && !a.Fail? {
      assert Next(setup, s, a).table.rows == s.table.rows;
    }
  }

  lemma {:induction false} RowsKept(setup: Setup, s: System, a: Action)
    requires Owned(s) && Provenance(setup, s) && Enabled(setup, s, a) && s.assembled <= Next(setup, s, a).assembled
    ensures var s' := Next(setup, s, a); forall j :: j in s'.table.rows ==> RowJustified(setup, s', s'.table.rows[j])
  {
    var s' := Next(setup, s, a);
    forall j | j in s'.table.rows
      ensures RowJustified(setup, s', s'.table.rows[j])
    {
      if j in s.table.rows {
        RowStays(setup, s, s', s.table.rows[j]);
        if a.Complete? && TaskOf(s, a.p, a.t).job == j {
          CompletedRow(setup, s, a);
        } else {
          RowFrame(setup, s, a, j);
        }
      }
    }
  }

  lemma {:induction false} CompletedRow(setup: Setup, s: System, a: Action)
    requires Owned(s) && Provenance(setup, s) && Enabled(setup, s, a) && a.Complete?
    ensures var s', job := Next(setup, s, a), TaskOf(s, a.p, a.t).job;
      job in s'.table.rows && RowJustified(setup, s', s'.table.rows[job])
  {
    var task := TaskOf(s, a.p, a.t);
    assert TaskOk(s, a.p, a.t) && StageJustified(setup, s, task) && RowJustified(setup, s, s.table.rows[task.job]);
    JustifiedStays(setup, s, Next(setup, s, a), task.doc, task.schema, task.stage.result);
  }

  /** Only a goroutine's own write puts anything into the cache, and only eviction takes anything out. */
  lemma {:induction false} CacheFrame(setup: Setup, s: System, a: Action)
    requires Enabled(setup, s, a)
    ensures Next(setup, s, a).cache ==
      if a.SetCache? && !a.lost then
        var task := TaskOf(s, a.p, a.t);
        s.cache[KeyOf(setup, task.doc, task.schema) := task.stage.result]
      else if a.Evict? then s.cache - {a.key}
      else s.cache
  {
    if !a.SetCache? && !a.Evict? {
      assert Next(setup, s, a).cache == s.cache;
    }
  }

  lemma {:induction false} CacheStep(setup: Setup, s: System, a: Action)
    requires Owned(s) && Provenance(setup, s) && Enabled(setup, s, a) && s.assembled <= Next(setup, s, a).assembled
    ensures var s' := Next(setup, s, a); forall key :: key in s'.cache ==> CacheEntryOk(setup, s', key)
  {
    var s' := Next(setup, s, a);
    CacheFrame(setup, s, a);
    forall key | key in s'.cache
      ensures CacheEntryOk(setup, s', key)
    {
      if key in s.cache && s'.cache[key] == s.cache[key] {
        CacheKept(setup, s, s', key);
      } else {
        var task := TaskOf(s, a.p, a.t);
        assert TaskOk(s, a.p, a.t) && StageJustified(setup, s, task) && RowJustified(setup, s, s.table.rows[task.job]);
        JustifiedStays(setup, s, s', task.doc, task.schema, task.stage.result);
      }
    }
  }

  /** A step changes one goroutine at most, and a new one has nothing in hand yet. */
  lemma {:induction false} TaskFrame(setup: Setup, s: System, a: Action, p: ProcId, t: TaskId)
    requires Enabled(setup, s, a) && Running(Next(setup, s, a), p, t)
    requires Running(s, p, t) ==> TaskOf(Next(setup, s, a), p, t) != TaskOf(s, p, t)
    ensures
      if Running(s, p, t) then
        && (a.LookUp? || a.WriteStatus? || a.GetText? || a.GetAnswers? || a.DoMerge? || a.SetCache? || a.Error?)
        && a.p == p && a.t == t
      else StageOf(Next(setup, s, a), p, t) == Start
  {
    if p in s.procs && Next(setup, s, a).procs[p].tasks == s.procs[p].tasks {
      assert false;
    }
  }

  lemma {:induction false} TasksKept(setup: Setup, s: System, a: Action)
    requires HashInjective(setup) && Owned(s) && Provenance(setup, s) && Enabled(setup, s, a)
    requires s.assembled <= Next(setup, s, a).assembled
    ensures var s' := Next(setup, s, a);
      forall p, t :: Running(s', p, t) ==> StageJustified(setup, s', TaskOf(s', p, t))
  {
    var s' := Next(setup, s, a);
    forall p, t | Running(s', p, t)
      ensures StageJustified(setup, s', TaskOf(s', p, t))
    {
      if Running(s, p, t) && TaskOf(s', p, t) == TaskOf(s, p, t) {
        StageStays(setup, s, s', TaskOf(s, p, t));
      } else {
        TaskFrame(setup, s, a, p, t);
        if Running(s, p, t) {
          TaskMoved(setup, s, a);
        }
      }
    }
  }

  lemma {:induction false} StageStays(setup: Setup, s: System, s': System, task: Task)
    requires s.assembled <= s'.assembled && StageJustified(setup, s, task)
    ensures StageJustified(setup, s', task)
  {
    if task.stage.Store? || task.stage.Finish? {
      JustifiedStays(setup, s, s', task.doc, task.schema, task.stage.result);
    }
  }

  /** The one task that a step moves. */
  lemma {:induction false} TaskMoved(setup: Setup, s: System, a: Action)
    requires HashInjective(setup) && Owned(s) && Provenance(setup, s) && Enabled(setup, s, a)
    requires a.LookUp? || a.WriteStatus? || a.GetText? || a.GetAnswers? || a.DoMerge? || a.SetCache? || a.Error?
    ensures Running(Next(setup, s, a), a.p, a.t)
    ensures StageJustified(setup, Next(setup, s, a), TaskOf(Next(setup, s, a), a.p, a.t))
  {
    var s', task := Next(setup, s, a), TaskOf(s, a.p, a.t);
    assert TaskOk(s, a.p, a.t) && StageJustified(setup, s, task);
    if a.LookUp? && a.hit {
      assert RowJustified(setup, s, s.table.rows[task.job]);
      HitIsJustified(setup, s, task.doc, task.schema);
      JustifiedStays(setup, s, s', task.doc, task.schema, s.cache[KeyOf(setup, task.doc, task.schema)]);
    } else if a.SetCache? {
      JustifiedStays(setup, s, s', task.doc, task.schema, task.stage.result);
    } else if a.DoMerge? {
      var assembly := Assembly(task.doc, task.schema, task.stage.found);
      assert assembly in s'.assembled;
    }
  }

  lemma {:induction false} StepProvenance(setup: Setup, s: System, a: Action)
    requires HashInjective(setup) && Owned(s) && Provenance(setup, s) && Enabled(setup, s, a)
    ensures Provenance(setup, Next(setup, s, a))
  {
    StepOwned(setup, s, a);
    RowsKept(setup, s, a);
    CacheStep(setup, s, a);
    TasksKept(setup, s, a);
  }

  // --- The semaphore ---

  ghost predicate SemaphoreOk(setup: Setup, s: System) {
    forall p :: p in s.procs ==>
      && Tokens(s.procs[p]) <= setup.concurrency(p)
      && (s.procs[p].loop.Stopped? ==> s.procs[p].tasks == map[])
  }

  lemma {:induction false} MapSizes<K, V>(m: map<K, V>, k: K, v: V)
    ensures |m[k := v]| == |m| + (if k in m then 0 else 1)
    ensures k in m ==> |m - {k}| == |m| - 1
  {
    assert m[k := v].Keys == m.Keys + {k};
    assert (m - {k}).Keys == m.Keys - {k};
  }

  /** A step changes one process at most. */
  lemma {:induction false} ProcFrame(setup: Setup, s: System, a: Action, p: ProcId)
    requires Enabled(setup, s, a) && p in s.procs && p in Next(setup, s, a).procs
    requires Next(setup, s, a).procs[p] != s.procs[p]
    ensures !a.Submit? && !a.Launch? && !a.Crash? && !a.Evict? && a.p == p
  {
  }

  lemma {:induction false} StepSemaphore(setup: Setup, s: System, a: Action)
    requires SemaphoreOk(setup, s) && Enabled(setup, s, a)
    ensures SemaphoreOk(setup, Next(setup, s, a))
  {
    var s' := Next(setup, s, a);
    forall p | p in s'.procs
      ensures Tokens(s'.procs[p]) <= setup.concurrency(p) && (s'.procs[p].loop.Stopped? ==> s'.procs[p].tasks == map[])
    {
      if p in s.procs && s'.procs[p] != s.procs[p] {
        ProcFrame(setup, s, a, p);
        ProcStep(setup, s, a);
      }
    }
  }

  predicate MovesTask(a: Action) {
    a.LookUp? || a.WriteStatus? || a.GetText? || a.GetAnswers? || a.DoMerge? || a.SetCache? || a.Error?
  }

  lemma {:induction false} ProcStep(setup: Setup, s: System, a: Action)
    requires SemaphoreOk(setup, s) && Enabled(setup, s, a)
    requires !a.Submit? && !a.Launch? && !a.Crash? && !a.Evict?
    ensures var proc := Next(setup, s, a).procs[a.p];
      Tokens(proc) <= setup.concurrency(a.p) && (proc.loop.Stopped? ==> proc.tasks == map[])
  {
    if a.Spawn? || a.Complete? || a.Fail? || MovesTask(a) {
      TaskCount(setup, s, a);
    }
  }

  lemma {:induction false} TaskTable(setup: Setup, s: System, a: Action)
    requires Enabled(setup, s, a) && (a.Spawn? || a.Complete? || a.Fail? || MovesTask(a))
    ensures a.p in s.procs && a.p in Next(setup, s, a).procs
    ensures var tasks, tasks' := s.procs[a.p].tasks, Next(setup, s, a).procs[a.p].tasks;
      && (a.t in tasks <==> !a.Spawn?)
      && (if a.Spawn? || MovesTask(a) then a.t in tasks' && tasks' == tasks[a.t := tasks'[a.t]]
          else tasks' == tasks - {a.t})
  {
  }

  /** Starting a goroutine takes one token, ending it gives one back, and a step within it does neither. */
  lemma {:induction false} TaskCount(setup: Setup, s: System, a: Action)
    requires Enabled(setup, s, a) && (a.Spawn? || a.Complete? || a.Fail? || MovesTask(a))
    ensures |Next(setup, s, a).procs[a.p].tasks| ==
      |s.procs[a.p].tasks| + (if a.Spawn? then 1 else if MovesTask(a) then 0 else -1)
    ensures Next(setup, s, a).procs[a.p].loop == if a.Spawn? then Polling else s.procs[a.p].loop
  {
    var tasks, tasks' := s.procs[a.p].tasks, Next(setup, s, a).procs[a.p].tasks;
    TaskTable(setup, s, a);
    if a.Spawn? || MovesTask(a) {
      MapSizes(tasks, a.t, tasks'[a.t]);
    } else {
      MapSizes(tasks, a.t, tasks[a.t]);
    }
  }

  // --- Runs ---

  lemma {:induction false} InitialSafe(setup: Setup)
    ensures Owned(INITIAL) && SemaphoreOk(setup, INITIAL) && Provenance(setup, INITIAL)
  {
  }

  lemma {:induction false} GrowsTransitive(a: System, b: System, c: System)
    requires Grows(a, b) && Grows(b, c)
    ensures Grows(a, c)
  {
  }

  /** Every run keeps all three invariants, the last one if the hash is injective, and no row goes back. */
  lemma {:induction false} RunKeeps(setup: Setup, s: System, run: seq<Action>)
    requires Owned(s) && SemaphoreOk(setup, s) && Possible(setup, s, run)
    ensures var s' := After(setup, s, run);
      && Owned(s') && SemaphoreOk(setup, s') && Grows(s, s')
      && (HashInjective(setup) && Provenance(setup, s) ==> Provenance(setup, s'))
    decreases |run|
  {
    if run != [] {
      var s' := Next(setup, s, run[0]);
      StepOwned(setup, s, run[0]);
      StepSemaphore(setup, s, run[0]);
      if HashInjective(setup) && Provenance(setup, s) {
        StepProvenance(setup, s, run[0]);
      }
      RunKeeps(setup, s', run[1..]);
      GrowsTransitive(s, s', After(setup, s', run[1..]));
    }
  }

  lemma {:induction false} RunSplits(setup: Setup, s: System, a: seq<Action>, b: seq<Action>)
    requires Possible(setup, s, a + b)
    ensures Possible(setup, s, a) && Possible(setup, After(setup, s, a), b)
    ensures After(setup, s, a + b) == After(setup, After(setup, s, a), b)
    decreases |a|
  {
    if a == [] {
      assert a + b == b;
    } else {
      assert (a + b)[1..] == a[1..] + b;
      RunSplits(setup, Next(setup, s, a[0]), a[1..], b);
    }
  }

  lemma {:induction false} RunsJoin(setup: Setup, s: System, a: seq<Action>, b: seq<Action>)
    requires Possible(setup, s, a) && Possible(setup, After(setup, s, a), b)
    ensures Possible(setup, s, a + b)
    ensures After(setup, s, a + b) == After(setup, After(setup, s, a), b)
    decreases |a|
  {
    if a == [] {
      assert a + b == b;
    } else {
      assert (a + b)[1..] == a[1..] + b;
      RunsJoin(setup, Next(setup, s, a[0]), a[1..], b);
    }
  }

  /** Exclusive claiming. In every state that any run reaches, no two places work on the same job; every
      goroutine's job has been claimed and is not finished; and the claims committed so far are exactly the
      jobs that have left pending, each of them once. */
  lemma {:induction false} ClaimsAreExclusive(setup: Setup, run: seq<Action>)
    requires Possible(setup, INITIAL, run)
    ensures var s := After(setup, INITIAL, run);
      && (forall p1, slot1, p2, slot2, j :: WorksOn(s, p1, slot1, j) && WorksOn(s, p2, slot2, j) ==>
            p1 == p2 && slot1 == slot2)
      && (forall p, t :: Running(s, p, t) ==> InProgress(s, TaskOf(s, p, t).job))
      && ClaimsOk(s)
  {
    var s := After(setup, INITIAL, run);
    InitialSafe(setup);
    RunKeeps(setup, INITIAL, run);
    forall p1, slot1, p2, slot2, j | WorksOn(s, p1, slot1, j) && WorksOn(s, p2, slot2, j)
      ensures p1 == p2 && slot1 == slot2
    {
      OneHolder(s, p1, slot1, p2, slot2, j);
    }
    forall p, t | Running(s, p, t)
      ensures InProgress(s, TaskOf(s, p, t).job)
    {
      assert TaskOk(s, p, t);
    }
  }

  predicate InProgress(s: System, j: JobId) {
    j in s.claims && j in s.table.rows && s.table.rows[j].status != Pending && !Terminal(s.table.rows[j].status)
  }

  /** Progress is never undone: between any two moments of any run, no job's rank falls, none leaves a
      terminal status, and no claim is forgotten. */
  lemma {:induction false} NeverBack(setup: Setup, before: seq<Action>, later: seq<Action>)
    requires Possible(setup, INITIAL, before + later)
    ensures Possible(setup, INITIAL, before)
    ensures Grows(After(setup, INITIAL, before), After(setup, INITIAL, before + later))
  {
    RunSplits(setup, INITIAL, before, later);
    InitialSafe(setup);
    RunKeeps(setup, INITIAL, before);
    RunKeeps(setup, After(setup, INITIAL, before), later);
  }

  /** Result agreement. In every run, with any evictions, the result recorded for a completed job, by way
      of the cache or not, is the merge of some non-empty results under its own schema, and that merge took
      place for its own document and schema. */
  lemma {:induction false} ResultsAgree(setup: Setup, run: seq<Action>, j: JobId)
    requires HashInjective(setup) && Possible(setup, INITIAL, run)
    requires var s := After(setup, INITIAL, run); j in s.table.rows && s.table.rows[j].status == Completed
    ensures var s := After(setup, INITIAL, run);
      var row := s.table.rows[j];
      row.result.Some? && exists results ::
        && results != []
        && Assembly(row.doc, row.schema, results) in s.assembled
        && row.result.value == Merge.Merged(results, Properties(setup.parse(row.schema)))
  {
    InitialSafe(setup);
    RunKeeps(setup, INITIAL, run);
    var s := After(setup, INITIAL, run);
    var row := s.table.rows[j];
    assert RowJustified(setup, s, row);
    var a :| a in s.assembled && a.doc == row.doc && a.schema == row.schema && a.results != []
      && ResultOf(setup, a) == row.result.value;
    assert a == Assembly(row.doc, row.schema, a.results);
  }

  /** Cache agreement: whatever a goroutine finds in the cache at any moment of any run was merged, earlier
      in that run, for the identical document and schema. */
  lemma {:induction false} HitsAgree(setup: Setup, run: seq<Action>, p: ProcId, t: TaskId)
    requires HashInjective(setup) && Possible(setup, INITIAL, run)
    requires Enabled(setup, After(setup, INITIAL, run), LookUp(p, t, true))
    ensures var s := After(setup, INITIAL, run);
      var task := TaskOf(s, p, t);
      Justified(setup, s, task.doc, task.schema, s.cache[KeyOf(setup, task.doc, task.schema)])
  {
    InitialSafe(setup);
    RunKeeps(setup, INITIAL, run);
    var s := After(setup, INITIAL, run);
    var task := TaskOf(s, p, t);
    assert TaskOk(s, p, t) && RowJustified(setup, s, s.table.rows[task.job]);
    HitIsJustified(setup, s, task.doc, task.schema);
  }

  /** The jobs a process has claimed and not finished. */
  function Unfinished(proc: Proc): nat {
    |proc.tasks| + (if proc.loop.Claimed? then 1 else 0)
  }

  /** Semaphore safety: a process never runs more jobs than its concurrency, holds at most one claimed job
      more than that, and has none left when its main loop has returned. */
  lemma {:induction false} SemaphoreHolds(setup: Setup, run: seq<Action>, p: ProcId)
    requires Possible(setup, INITIAL, run) && p in After(setup, INITIAL, run).procs
    ensures var proc := After(setup, INITIAL, run).procs[p];
      && |proc.tasks| <= setup.concurrency(p)
      && Unfinished(proc) <= setup.concurrency(p) + 1
      && (proc.loop.Stopped? ==> Unfinished(proc) == 0)
  {
    InitialSafe(setup);
    RunKeeps(setup, INITIAL, run);
  }
}
