/** What every step of the worker protocol keeps. */
module ProtocolInvariants {
  import opened Json
  import opened CacheKey
  import opened JobTable
  import opened Protocol

  // --- Ownership ---

  /** The furthest a job's row can be when its goroutine stands at a stage; lost writes leave it behind. */
  function Ceiling(stage: Stage): nat {
    match stage
    case Start => 1
    case WriteIngesting => 1
    case ReadText => 1
    case WriteChunking => 1
    case WriteExtracting => 2
    case AskModel => 3
    case WriteAssembling(_) => 3
    case Assemble(_) => 4
    case Store(_) => 4
    case Finish(_) => 4
    case Failing => 4
  }

  /** A claimed job, seen from the one place that works on it. */
  ghost predicate Held(s: System, p: ProcId, slot: Slot, job: JobId, doc: Bytes, schema: Bytes, ceiling: nat) {
    && job in s.table.rows && job !in s.table.locks
    && job in s.owner && s.owner[job] == (p, slot)
    && s.table.rows[job].doc == doc && s.table.rows[job].schema == schema
    && 1 <= Rank(s.table.rows[job].status) <= ceiling
  }

  ghost predicate LoopOk(s: System, p: ProcId)
    requires p in s.procs
  {
    match s.procs[p].loop
    case Selected(j, doc, schema) =>
      && j in s.table.locks && s.table.locks[j] == p
      && j in s.table.rows && s.table.rows[j].status == Pending
      && s.table.rows[j].doc == doc && s.table.rows[j].schema == schema
    case Claimed(j, doc, schema) => Held(s, p, Main, j, doc, schema, 1)
    case _ => true
  }

  ghost predicate TaskOk(s: System, p: ProcId, t: TaskId)
    requires Running(s, p, t)
  {
    var task := TaskOf(s, p, t);
    Held(s, p, Slot(t), task.job, task.doc, task.schema, Ceiling(task.stage))
  }

  ghost predicate LocksOk(s: System) {
    forall j :: j in s.table.locks ==>
      && j in s.table.rows && s.table.rows[j].status == Pending
      && s.table.locks[j] in s.procs
      && s.procs[s.table.locks[j]].loop.Selected? && s.procs[s.table.locks[j]].loop.job == j
  }

  /** The claims are exactly the jobs that have left pending, each once. */
  ghost predicate ClaimsOk(s: System) {
    && (forall j :: j in s.claims <==> j in s.table.rows && s.table.rows[j].status != Pending)
    && (forall a, b :: 0 <= a < b < |s.claims| ==> s.claims[a] != s.claims[b])
  }

  ghost predicate LoopsOk(s: System) {
    forall p :: p in s.procs ==> LoopOk(s, p)
  }

  ghost predicate TasksOk(s: System) {
    forall p, t :: Running(s, p, t) ==> TaskOk(s, p, t)
  }

  ghost predicate Owned(s: System) {
    LoopsOk(s) && TasksOk(s) && LocksOk(s) && ClaimsOk(s)
  }

  /** What can happen to a job's row: it never goes back, and a terminal one never changes. */
  predicate RowGrows(before: Row, after: Row) {
    && after.createdAt == before.createdAt && after.doc == before.doc && after.schema == before.schema
    && Rank(before.status) <= Rank(after.status)
    && (Terminal(before.status) ==> after == before)
  }

  ghost predicate Grows(s: System, s': System) {
    && (forall j :: j in s.table.rows ==> j in s'.table.rows && RowGrows(s.table.rows[j], s'.table.rows[j]))
    && s.claims <= s'.claims
    && s.assembled <= s'.assembled
  }

  /** A place that has a job in hand: a process's main loop, from selecting it on, or a goroutine. */
  predicate WorksOn(s: System, p: ProcId, slot: Slot, j: JobId) {
    match slot
    case Main => p in s.procs && (s.procs[p].loop.Selected? || s.procs[p].loop.Claimed?) && s.procs[p].loop.job == j
    case Slot(t) => Running(s, p, t) && TaskOf(s, p, t).job == j
  }

  /** Two places never work on the same job: a pending one is locked by one process, and any other has one
      recorded owner. */
  lemma {:induction false} OneHolder(s: System, p1: ProcId, slot1: Slot, p2: ProcId, slot2: Slot, j: JobId)
    requires LoopsOk(s) && TasksOk(s) && WorksOn(s, p1, slot1, j) && WorksOn(s, p2, slot2, j)
    ensures p1 == p2 && slot1 == slot2
  {
    assert slot1.Main? ==> LoopOk(s, p1);
    assert slot2.Main? ==> LoopOk(s, p2);
    assert slot1.Slot? ==> TaskOk(s, p1, slot1.task);
    assert slot2.Slot? ==> TaskOk(s, p2, slot2.task);
  }

  /** A step that leaves the table, the owners and the claims alone keeps ownership if no loop takes up a
      job and no task's ceiling comes down. */
  lemma {:induction false} QuietStepOwned(s: System, s': System)
    requires Owned(s)
    requires s'.table == s.table && s'.owner == s.owner && s'.claims == s.claims && s.assembled <= s'.assembled
    requires forall p :: p in s.procs ==> p in s'.procs
    requires forall p :: p in s'.procs ==>
      if p in s.procs && (s.procs[p].loop.Selected? || s.procs[p].loop.Claimed?) then
        s'.procs[p].loop == s.procs[p].loop
      else !s'.procs[p].loop.Selected? && !s'.procs[p].loop.Claimed?
    requires forall p, t :: Running(s', p, t) ==> Running(s, p, t) && Moves(TaskOf(s, p, t), TaskOf(s', p, t))
    ensures Owned(s') && Grows(s, s')
  {
    forall p | p in s'.procs
      ensures LoopOk(s', p)
    {
      assert p in s.procs ==> LoopOk(s, p);
    }
    forall p, t | Running(s', p, t)
      ensures TaskOk(s', p, t)
    {
      assert TaskOk(s, p, t);
    }
  }

  predicate Moves(before: Task, after: Task) {
    after == before.(stage := after.stage) && Ceiling(before.stage) <= Ceiling(after.stage)
  }

  /** A step on the row of the job that one task holds: the row goes forward, and the task either ends or
      moves to a stage whose ceiling still covers the row. */
  lemma {:induction false} HeldStepOwned(s: System, s': System, p: ProcId, t: TaskId, row: Row)
    requires Owned(s) && Running(s, p, t)
    requires var job := TaskOf(s, p, t).job;
      && job in s.table.rows && RowGrows(s.table.rows[job], row)
      && s'.table == s.table.(rows := s.table.rows[job := row])
      && (Running(s', p, t) ==>
        Moves(TaskOf(s, p, t), TaskOf(s', p, t)) && Rank(row.status) <= Ceiling(StageOf(s', p, t)))
    requires s'.owner == s.owner && s'.claims == s.claims && s'.assembled == s.assembled
    requires s'.procs.Keys == s.procs.Keys
    requires forall q :: q in s.procs ==> s'.procs[q].loop == s.procs[q].loop
    requires forall q, u :: Running(s', q, u) ==>
      Running(s, q, u) && ((q == p && u == t) || TaskOf(s', q, u) == TaskOf(s, q, u))
    ensures Owned(s') && Grows(s, s')
  {
    assert TaskOk(s, p, t);
    forall q | q in s'.procs
      ensures LoopOk(s', q)
    {
      assert LoopOk(s, q);
    }
    forall q, u | Running(s', q, u)
      ensures TaskOk(s', q, u)
    {
      assert TaskOk(s, q, u);
    }
  }

  lemma {:induction false} SubmitOwned(setup: Setup, s: System, a: Action)
    requires Owned(s) && Enabled(setup, s, a) && a.Submit?
    ensures Owned(Next(setup, s, a)) && Grows(s, Next(setup, s, a))
  {
    var s' := Next(setup, s, a);
    forall p | p in s'.procs
      ensures LoopOk(s', p)
    {
      assert LoopOk(s, p);
    }
    forall p, t | Running(s', p, t)
      ensures TaskOk(s', p, t)
    {
      assert Running(s, p, t) && TaskOk(s, p, t);
    }
  }

  lemma {:induction false} SelectOwned(setup: Setup, s: System, a: Action)
    requires Owned(s) && Enabled(setup, s, a) && a.Select?
    ensures Owned(Next(setup, s, a)) && Grows(s, Next(setup, s, a))
  {
    var s' := Next(setup, s, a);
    SelectLoops(setup, s, a);
    forall q, t | Running(s', q, t)
      ensures TaskOk(s', q, t)
    {
      assert Running(s, q, t) && TaskOk(s, q, t);
    }
  }

  lemma {:induction false} SelectLoops(setup: Setup, s: System, a: Action)
    requires Owned(s) && Enabled(setup, s, a) && a.Select?
    ensures LoopsOk(Next(setup, s, a))
  {
    var s' := Next(setup, s, a);
    forall q | q in s'.procs
      ensures LoopOk(s', q)
    {
      assert LoopOk(s, q);
    }
  }

  /** A pending job that leaves pending was not among the claims, so it can be added to them. */
  lemma {:induction false} ClaimsAppend(s: System, s': System, j: JobId)
    requires ClaimsOk(s) && j in s.table.rows && s.table.rows[j].status == Pending
    requires s'.claims == s.claims + [j]
    requires s'.table.rows == s.table.rows[j := s.table.rows[j].(status := Ingesting)]
    ensures ClaimsOk(s')
  {
    assert j !in s.claims;
  }

  /** The end of a claim transaction, one way or the other: the lock is released, and either nothing else
      changes or the row leaves pending and is recorded as claimed. */
  ghost predicate Released(s: System, s': System, p: ProcId, claimed: bool)
    requires p in s.procs && s.procs[p].loop.Selected? && s.procs[p].loop.job in s.table.rows
  {
    var job, row := s.procs[p].loop.job, s.table.rows[s.procs[p].loop.job];
    && s'.table.locks == s.table.locks - {job}
    && s'.table.rows == s.table.rows[job := if claimed then row.(status := Ingesting) else row]
    && s'.claims == (if claimed then s.claims + [job] else s.claims)
    && s'.assembled == s.assembled
    && (s'.owner == s.owner || s'.owner == s.owner[job := (p, Main)])
    && s'.procs.Keys == s.procs.Keys
    && (forall q :: q in s.procs ==> s'.procs[q].tasks == s.procs[q].tasks)
    && (forall q :: q in s.procs && q != p ==> s'.procs[q].loop == s.procs[q].loop)
    && (s'.procs[p].loop == Polling
        || (claimed && s'.procs[p].loop == Claimed(job, row.doc, row.schema) && s'.owner == s.owner[job := (p, Main)]))
  }

  lemma {:induction false} ReleaseLoops(s: System, s': System, p: ProcId, claimed: bool)
    requires Owned(s) && p in s.procs && s.procs[p].loop.Selected? && LoopOk(s, p)
    requires Released(s, s', p, claimed)
    ensures LoopsOk(s')
  {
    forall q | q in s'.procs
      ensures LoopOk(s', q)
    {
      assert LoopOk(s, q);
    }
  }

  lemma {:induction false} ReleaseTasks(s: System, s': System, p: ProcId, claimed: bool)
    requires Owned(s) && p in s.procs && s.procs[p].loop.Selected? && LoopOk(s, p)
    requires Released(s, s', p, claimed)
    ensures TasksOk(s')
  {
    forall q, t | Running(s', q, t)
      ensures TaskOk(s', q, t)
    {
      assert Running(s, q, t) && TaskOk(s, q, t);
    }
  }

  lemma {:induction false} ReleaseOwned(s: System, s': System, p: ProcId, claimed: bool)
    requires Owned(s) && p in s.procs && s.procs[p].loop.Selected? && LoopOk(s, p)
    requires Released(s, s', p, claimed)
    ensures Owned(s') && Grows(s, s')
  {
    ReleaseLoops(s, s', p, claimed);
    ReleaseTasks(s, s', p, claimed);
    if claimed {
      ClaimsAppend(s, s', s.procs[p].loop.job);
    }
  }

  lemma {:induction false} ClaimEnds(setup: Setup, s: System, a: Action)
    requires Enabled(setup, s, a) && (a.Abort? || a.Commit? || a.CommitUnheard?) && LoopOk(s, a.p)
    ensures Released(s, Next(setup, s, a), a.p, !a.Abort?)
  {
  }

  lemma {:induction false} ClaimEndOwned(setup: Setup, s: System, a: Action)
    requires Owned(s) && Enabled(setup, s, a) && (a.Abort? || a.Commit? || a.CommitUnheard?)
    ensures Owned(Next(setup, s, a)) && Grows(s, Next(setup, s, a))
  {
    assert LoopOk(s, a.p);
    ClaimEnds(setup, s, a);
    ReleaseOwned(s, Next(setup, s, a), a.p, !a.Abort?);
  }

  lemma {:induction false} CrashOwned(setup: Setup, s: System, a: Action)
    requires Owned(s) && Enabled(setup, s, a) && a.Crash?
    ensures Owned(Next(setup, s, a)) && Grows(s, Next(setup, s, a))
  {
    var s' := Next(setup, s, a);
    forall q | q in s'.procs
      ensures LoopOk(s', q)
    {
      assert LoopOk(s, q);
    }
    forall q, t | Running(s', q, t)
      ensures TaskOk(s', q, t)
    {
      assert Running(s, q, t) && TaskOk(s, q, t);
    }
  }

  lemma {:induction false} SpawnOwned(setup: Setup, s: System, a: Action)
    requires Owned(s) && Enabled(setup, s, a) && a.Spawn?
    ensures Owned(Next(setup, s, a)) && Grows(s, Next(setup, s, a))
  {
    var s' := Next(setup, s, a);
    assert LoopOk(s, a.p);
    forall q | q in s'.procs
      ensures LoopOk(s', q)
    {
      assert LoopOk(s, q);
    }
    forall q: ProcId, u: TaskId | Running(s', q, u)
      ensures TaskOk(s', q, u)
    {
      if q != a.p || u != a.t {
        assert Running(s, q, u) && TaskOk(s, q, u);
      }
    }
  }

  lemma {:induction false} WriteOwned(setup: Setup, s: System, a: Action)
    requires Owned(s) && Enabled(setup, s, a) && a.WriteStatus?
    ensures Owned(Next(setup, s, a)) && Grows(s, Next(setup, s, a))
  {
    var s', task := Next(setup, s, a), TaskOf(s, a.p, a.t);
    assert TaskOk(s, a.p, a.t);
    var row := s.table.rows[task.job];
    var row' := if a.lost then row else row.(status := StatusWritten(task.stage).value);
    assert s.table == s.table.(rows := s.table.rows[task.job := row]);
    HeldStepOwned(s, s', a.p, a.t, row');
  }

  lemma {:induction false} CompleteOwned(setup: Setup, s: System, a: Action)
    requires Owned(s) && Enabled(setup, s, a) && a.Complete?
    ensures Owned(Next(setup, s, a)) && Grows(s, Next(setup, s, a))
  {
    var task := TaskOf(s, a.p, a.t);
    assert TaskOk(s, a.p, a.t);
    var row := s.table.rows[task.job];
    HeldStepOwned(s, Next(setup, s, a), a.p, a.t, row.(status := Completed, result := Some(task.stage.result)));
  }

  lemma {:induction false} FailOwned(setup: Setup, s: System, a: Action)
    requires Owned(s) && Enabled(setup, s, a) && a.Fail?
    ensures Owned(Next(setup, s, a)) && Grows(s, Next(setup, s, a))
  {
    var task := TaskOf(s, a.p, a.t);
    assert TaskOk(s, a.p, a.t);
    var row := s.table.rows[task.job];
    assert s.table == s.table.(rows := s.table.rows[task.job := row]);
    HeldStepOwned(s, Next(setup, s, a), a.p, a.t, if a.lost then row else row.(status := Failed));
  }

  lemma {:induction false} LoopOwned(setup: Setup, s: System, a: Action)
    requires Owned(s) && Enabled(setup, s, a)
    requires a.Launch? || a.Evict? || a.BeginDrain? || a.TakeBack? || a.Stop?
    ensures Owned(Next(setup, s, a)) && Grows(s, Next(setup, s, a))
  {
    QuietStepOwned(s, Next(setup, s, a));
  }

  lemma {:induction false} StageStepOwned(s: System, s': System, p: ProcId, t: TaskId, stage: Stage)
    requires Owned(s) && Running(s, p, t) && Ceiling(StageOf(s, p, t)) <= Ceiling(stage)
    requires s'.table == s.table && s'.owner == s.owner && s'.claims == s.claims && s.assembled <= s'.assembled
    requires s'.procs == SetStage(s, p, t, stage).procs
    ensures Owned(s') && Grows(s, s')
  {
    QuietStepOwned(s, s');
  }

  predicate MovesStage(a: Action) {
    a.LookUp? || a.GetText? || a.GetAnswers? || a.DoMerge? || a.SetCache? || a.Error?
  }

  /** Most steps of a goroutine do nothing to the table. */
  lemma {:induction false} StageStep(setup: Setup, s: System, a: Action)
    requires Enabled(setup, s, a) && MovesStage(a)
    ensures var s' := Next(setup, s, a);
      && Running(s, a.p, a.t) && Running(s', a.p, a.t)
      && Ceiling(StageOf(s, a.p, a.t)) <= Ceiling(StageOf(s', a.p, a.t))
      && s'.table == s.table && s'.owner == s.owner && s'.claims == s.claims && s.assembled <= s'.assembled
      && s'.procs == SetStage(s, a.p, a.t, StageOf(s', a.p, a.t)).procs
  {
  }

  lemma {:induction false} StageOwned(setup: Setup, s: System, a: Action)
    requires Owned(s) && Enabled(setup, s, a) && MovesStage(a)
    ensures Owned(Next(setup, s, a)) && Grows(s, Next(setup, s, a))
  {
    var s' := Next(setup, s, a);
    StageStep(setup, s, a);
    StageStepOwned(s, s', a.p, a.t, StageOf(s', a.p, a.t));
  }

  /** Every step keeps ownership, and only ever moves rows forward. */
  lemma {:induction false} StepOwned(setup: Setup, s: System, a: Action)
    requires Owned(s) && Enabled(setup, s, a)
    ensures Owned(Next(setup, s, a)) && Grows(s, Next(setup, s, a))
  {
    if a.Submit? { SubmitOwned(setup, s, a); }
    else if a.Select? { SelectOwned(setup, s, a); }
    else if a.Abort? || a.Commit? || a.CommitUnheard? { ClaimEndOwned(setup, s, a); }
    else if a.Crash? { CrashOwned(setup, s, a); }
    else if a.Spawn? { SpawnOwned(setup, s, a); }
    else if a.WriteStatus? { WriteOwned(setup, s, a); }
    else if a.Complete? { CompleteOwned(setup, s, a); }
    else if a.Fail? { FailOwned(setup, s, a); }
    else if a.Launch? || a.Evict? || a.BeginDrain? || a.TakeBack? || a.Stop? { LoopOwned(setup, s, a); }
    else { StageOwned(setup, s, a); }
  }
}
