/** Jobs that nobody works on any more: nothing in the protocol ever takes one up again. */
module ProtocolStranded {
  import opened Json
  import opened CacheKey
  import opened JobTable
  import opened Protocol
  import opened ProtocolInvariants
  import opened ProtocolTheorems

  /** Claimed, and in nobody's hands. */
  ghost predicate Stranded(s: System, j: JobId) {
    j in s.claims && forall p, slot :: !WorksOn(s, p, slot, j)
  }

  predicate Writes(a: Action) {
    a.Commit? || a.CommitUnheard? || a.WriteStatus? || a.Complete? || a.Fail?
  }

  /** The place that a writing step belongs to. */
  function Writer(a: Action): Slot
    requires Writes(a)
  {
    if a.Commit? || a.CommitUnheard? then Main else Slot(a.t)
  }

  /** A row changes only by the hand of a place that works on its job. */
  lemma {:induction false} RowFrozen(setup: Setup, s: System, a: Action, j: JobId)
    requires Enabled(setup, s, a) && j in s.table.rows
    requires Writes(a) ==> !WorksOn(s, a.p, Writer(a), j)
    ensures j in Next(setup, s, a).table.rows && Next(setup, s, a).table.rows[j] == s.table.rows[j]
  {
    if !Writes(a) && !a.Submit? {
      assert Next(setup, s, a).table.rows == s.table.rows;
    }
  }

  lemma {:induction false} StrandedRow(setup: Setup, s: System, a: Action, j: JobId)
    requires Owned(s) && Enabled(setup, s, a) && Stranded(s, j)
    ensures j in s.table.rows && j in Next(setup, s, a).table.rows
    ensures Next(setup, s, a).table.rows[j] == s.table.rows[j]
  {
    RowFrozen(setup, s, a, j);
  }

  lemma {:induction false} MainTakesUp(setup: Setup, s: System, a: Action, p: ProcId, j: JobId)
    requires Enabled(setup, s, a) && WorksOn(Next(setup, s, a), p, Main, j) && !WorksOn(s, p, Main, j)
    ensures a.Select? && a.j == j
  {
    if MovesTask(a) || a.Submit? || a.Evict? || a.Crash? {
      assert false;
    }
  }

  /** A goroutine keeps its job; only the start of one brings a new one. */
  lemma {:induction false} TaskKeepsJob(setup: Setup, s: System, a: Action, p: ProcId, t: TaskId)
    requires Enabled(setup, s, a) && Running(Next(setup, s, a), p, t) && !(a.Spawn? && a.p == p && a.t == t)
    ensures Running(s, p, t) && TaskOf(Next(setup, s, a), p, t).job == TaskOf(s, p, t).job
  {
    if !MovesTask(a) && !a.Spawn? && !a.Complete? && !a.Fail? && !a.Launch? {
      assert p in s.procs && Next(setup, s, a).procs[p].tasks == s.procs[p].tasks;
    }
  }

  lemma {:induction false} TaskTakesUp(setup: Setup, s: System, a: Action, p: ProcId, t: TaskId, j: JobId)
    requires Enabled(setup, s, a) && WorksOn(Next(setup, s, a), p, Slot(t), j) && !WorksOn(s, p, Slot(t), j)
    ensures a.Spawn? && WorksOn(s, a.p, Main, j)
  {
    if !(a.Spawn? && a.p == p && a.t == t) {
      TaskKeepsJob(setup, s, a, p, t);
      assert false;
    }
  }

  /** A place takes up a job only by selecting it, or from the main loop of its own process. */
  lemma {:induction false} TakenUp(setup: Setup, s: System, a: Action, p: ProcId, slot: Slot, j: JobId)
    requires Enabled(setup, s, a) && WorksOn(Next(setup, s, a), p, slot, j) && !WorksOn(s, p, slot, j)
    ensures (a.Select? && a.j == j) || (a.Spawn? && WorksOn(s, a.p, Main, j))
  {
    match slot
    case Main => MainTakesUp(setup, s, a, p, j);
    case Slot(t) => TaskTakesUp(setup, s, a, p, t, j);
  }

  lemma {:induction false} StrandedStep(setup: Setup, s: System, a: Action, j: JobId)
    requires Owned(s) && Enabled(setup, s, a) && Stranded(s, j)
    ensures Stranded(Next(setup, s, a), j)
  {
    var s' := Next(setup, s, a);
    StepOwned(setup, s, a);
    forall p, slot
      ensures !WorksOn(s', p, slot, j)
    {
      if WorksOn(s', p, slot, j) {
        TakenUp(setup, s, a, p, slot, j);
        assert false;
      }
    }
  }

  /** Once stranded, a job stays so in every run, and its row never changes again. */
  lemma {:induction false} StrandedForever(setup: Setup, s: System, run: seq<Action>, j: JobId)
    requires Owned(s) && Possible(setup, s, run) && Stranded(s, j)
    ensures var s' := After(setup, s, run);
      && Stranded(s', j) && j in s.table.rows && j in s'.table.rows && s'.table.rows[j] == s.table.rows[j]
    decreases |run|
  {
    if run == [] {
      assert j in s.table.rows;
    } else {
      StepOwned(setup, s, run[0]);
      StrandedRow(setup, s, run[0], j);
      StrandedStep(setup, s, run[0], j);
      StrandedForever(setup, Next(setup, s, run[0]), run[1..], j);
    }
  }

  /** A claim whose commit goes through unheard strands its job, which stays ingesting for good. */
  lemma {:induction false} UnheardStrands(setup: Setup, before: seq<Action>, p: ProcId, later: seq<Action>)
    requires Possible(setup, INITIAL, before) && Enabled(setup, After(setup, INITIAL, before), CommitUnheard(p))
    requires Possible(setup, Next(setup, After(setup, INITIAL, before), CommitUnheard(p)), later)
    ensures var s := After(setup, INITIAL, before);
      var j, s' := s.procs[p].loop.job, After(setup, Next(setup, s, CommitUnheard(p)), later);
      Stranded(s', j) && j in s'.table.rows && s'.table.rows[j].status == Ingesting
  {
    InitialSafe(setup);
    RunKeeps(setup, INITIAL, before);
    var s := After(setup, INITIAL, before);
    UnheardStep(setup, s, p);
    StepOwned(setup, s, CommitUnheard(p));
    StrandedForever(setup, Next(setup, s, CommitUnheard(p)), later, s.procs[p].loop.job);
  }

  lemma {:induction false} UnheardStep(setup: Setup, s: System, p: ProcId)
    requires Owned(s) && Enabled(setup, s, CommitUnheard(p))
    ensures var j, s' := s.procs[p].loop.job, Next(setup, s, CommitUnheard(p));
      Stranded(s', j) && j in s'.table.rows && s'.table.rows[j].status == Ingesting
  {
    var j, s' := s.procs[p].loop.job, Next(setup, s, CommitUnheard(p));
    assert LoopOk(s, p) && WorksOn(s, p, Main, j);
    forall q, slot
      ensures !WorksOn(s', q, slot, j)
    {
      if WorksOn(s', q, slot, j) {
        assert WorksOn(s, q, slot, j);
        OneHolder(s, p, Main, q, slot, j);
        assert false;
      }
    }
  }

  /** A process that dies strands every job it has claimed and not finished: its row stays as it was at
      that moment. */
  lemma {:induction false} CrashStrands(setup: Setup, before: seq<Action>, p: ProcId, slot: Slot, j: JobId,
                                        later: seq<Action>)
    requires Possible(setup, INITIAL, before) && Enabled(setup, After(setup, INITIAL, before), Crash(p))
    requires Possible(setup, Next(setup, After(setup, INITIAL, before), Crash(p)), later)
    requires var s := After(setup, INITIAL, before); WorksOn(s, p, slot, j) && j in s.claims
    ensures var s := After(setup, INITIAL, before);
      var s' := After(setup, Next(setup, s, Crash(p)), later);
      Stranded(s', j) && j in s.table.rows && j in s'.table.rows && s'.table.rows[j] == s.table.rows[j]
  {
    InitialSafe(setup);
    RunKeeps(setup, INITIAL, before);
    var s := After(setup, INITIAL, before);
    CrashStep(setup, s, p, slot, j);
    StepOwned(setup, s, Crash(p));
    StrandedForever(setup, Next(setup, s, Crash(p)), later, j);
  }

  lemma {:induction false} CrashStep(setup: Setup, s: System, p: ProcId, slot: Slot, j: JobId)
    requires Owned(s) && Enabled(setup, s, Crash(p)) && WorksOn(s, p, slot, j) && j in s.claims
    ensures Stranded(Next(setup, s, Crash(p)), j)
  {
    var s' := Next(setup, s, Crash(p));
    forall q, other
      ensures !WorksOn(s', q, other, j)
    {
      if WorksOn(s', q, other, j) {
        assert WorksOn(s, q, other, j);
        OneHolder(s, p, slot, q, other, j);
        assert false;
      }
    }
  }
}
