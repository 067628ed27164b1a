/** What the protocol can do: from every state in which a worker is free, a pending job can be completed by
    way of the model, completed from the cache, failed, or let go again; and an idle worker can stop. */
module ProtocolRuns {
  import opened Json
  import opened CacheKey
  import opened JobTable
  import opened Protocol
  import opened ProtocolInvariants
  import opened ProtocolTheorems
  import JsonText
  import Merge

  // --- Runs with the states they pass through ---

  predicate Trace(setup: Setup, run: seq<Action>, states: seq<System>) {
    && |states| == |run| + 1
    && forall i {:trigger StepAt(setup, run, states, i)} :: 0 <= i < |run| ==> StepAt(setup, run, states, i)
  }

  predicate StepAt(setup: Setup, run: seq<Action>, states: seq<System>, i: nat)
    requires i < |run| && |states| == |run| + 1
  {
    Enabled(setup, states[i], run[i]) && states[i + 1] == Next(setup, states[i], run[i])
  }

  lemma {:induction false} TraceStart(s: System, setup: Setup)
    ensures Trace(setup, [], [s])
  {
  }

  lemma {:induction false} TraceAppend(setup: Setup, run: seq<Action>, states: seq<System>, a: Action)
    requires Trace(setup, run, states) && Enabled(setup, states[|run|], a)
    ensures Trace(setup, run + [a], states + [Next(setup, states[|run|], a)])
  {
    hide Enabled, Next;
    var run', states' := run + [a], states + [Next(setup, states[|run|], a)];
    forall i | 0 <= i < |run'|
      ensures StepAt(setup, run', states', i)
    {
      assert i < |run| ==> StepAt(setup, run, states, i);
    }
  }

  /** A trace is a run, and its last state is where the run leads. */
  lemma {:induction false} TraceIsRun(setup: Setup, run: seq<Action>, states: seq<System>)
    requires Trace(setup, run, states)
    ensures Possible(setup, states[0], run) && After(setup, states[0], run) == states[|run|]
    decreases |run|
  {
    hide Enabled, Next;
    if run != [] {
      assert StepAt(setup, run, states, 0);
      forall i | 0 <= i < |run| - 1
        ensures StepAt(setup, run[1..], states[1..], i)
      {
        assert StepAt(setup, run, states, i + 1);
      }
      TraceIsRun(setup, run[1..], states[1..]);
    }
  }

  // --- Submitting ---

  /** Every JSON object is let in as a schema under a fresh id, and its job begins as pending. */
  lemma {:induction false} SubmitEnabled(setup: Setup, s: System, j: JobId, createdAt: int, doc: Bytes, schema: Bytes)
    requires j !in s.table.rows && JsonText.JsonObject(schema)
    ensures var a := Submit(j, createdAt, doc, schema);
      && Enabled(setup, s, a)
      && Next(setup, s, a).table.rows == s.table.rows[j := Row(Pending, createdAt, doc, schema, None)]
  {
    JsonText.ObjectsAreTexts(schema);
    JsonText.JsonIsLexical(schema);
  }

  // --- The steps of a job ---

  /** A goroutine stands at a stage with a job whose row is as given. */
  predicate At(s: System, p: ProcId, t: TaskId, j: JobId, row: Row, stage: Stage) {
    && Running(s, p, t) && TaskOf(s, p, t) == Task(j, row.doc, row.schema, stage)
    && j in s.table.rows && s.table.rows[j] == row
  }

  /** A worker that may start another goroutine, and a job it may claim. */
  predicate Free(setup: Setup, s: System, p: ProcId, t: TaskId, j: JobId) {
    && p in s.procs && s.procs[p].loop == Polling && t !in s.procs[p].tasks
    && |s.procs[p].tasks| < setup.concurrency(p)
    && j in s.table.rows && s.table.rows[j].status == Pending && j !in s.table.locks
  }

  lemma {:induction false} SelectStep(setup: Setup, s: System, p: ProcId, t: TaskId, j: JobId)
    requires Free(setup, s, p, t, j)
    ensures var row := s.table.rows[j];
      && Enabled(setup, s, Select(p, j))
      && var s' := Next(setup, s, Select(p, j));
         && p in s'.procs && s'.procs[p] == Proc(Selected(j, row.doc, row.schema), s.procs[p].tasks)
         && s'.table == Table(s.table.rows, s.table.locks[j := p]) && s'.cache == s.cache
  {
  }

  /** A claim that is taken back leaves nothing behind. */
  lemma {:induction false} AbortStep(setup: Setup, s: System, p: ProcId, t: TaskId, j: JobId)
    requires Free(setup, s, p, t, j)
    ensures Enabled(setup, s, Select(p, j)) && Enabled(setup, Next(setup, s, Select(p, j)), Abort(p))
    ensures Next(setup, Next(setup, s, Select(p, j)), Abort(p)) == s
  {
    var s' := Next(setup, Next(setup, s, Select(p, j)), Abort(p));
    assert s'.table.locks == s.table.locks;
    assert s'.procs == s.procs;
  }

  lemma {:induction false} CommitStep(setup: Setup, s: System, p: ProcId, j: JobId)
    requires p in s.procs && j in s.table.rows
    requires s.procs[p].loop == Selected(j, s.table.rows[j].doc, s.table.rows[j].schema)
    ensures var row := s.table.rows[j];
      && Enabled(setup, s, Commit(p))
      && var s' := Next(setup, s, Commit(p));
         && p in s'.procs && s'.procs[p] == Proc(Claimed(j, row.doc, row.schema), s.procs[p].tasks)
         && j in s'.table.rows && s'.table.rows[j] == row.(status := Ingesting) && s'.cache == s.cache
  {
  }

  lemma {:induction false} SpawnStep(setup: Setup, s: System, p: ProcId, t: TaskId, j: JobId, row: Row)
    requires p in s.procs && j in s.table.rows && s.table.rows[j] == row
    requires s.procs[p].loop == Claimed(j, row.doc, row.schema) && t !in s.procs[p].tasks
    requires |s.procs[p].tasks| < setup.concurrency(p)
    ensures Enabled(setup, s, Spawn(p, t)) && At(Next(setup, s, Spawn(p, t)), p, t, j, row, Start)
    ensures Next(setup, s, Spawn(p, t)).cache == s.cache
  {
  }

  /** Nothing in the cache: on to the long way. */
  lemma {:induction false} MissStep(setup: Setup, s: System, p: ProcId, t: TaskId, j: JobId, row: Row)
    requires At(s, p, t, j, row, Start)
    ensures var a := LookUp(p, t, false);
      Enabled(setup, s, a) && At(Next(setup, s, a), p, t, j, row, WriteIngesting)
  {
  }

  /** A hit: on with what was found, and nothing else. */
  lemma {:induction false} HitStep(setup: Setup, s: System, p: ProcId, t: TaskId, j: JobId, row: Row)
    requires At(s, p, t, j, row, Start) && KeyOf(setup, row.doc, row.schema) in s.cache
    ensures var a := LookUp(p, t, true);
      && Enabled(setup, s, a)
      && At(Next(setup, s, a), p, t, j, row, Finish(s.cache[KeyOf(setup, row.doc, row.schema)]))
  {
  }

  /** The status that is written at each stage, and the stage that follows. */
  predicate Writes(stage: Stage, status: Status, next: Stage) {
    || (stage == WriteIngesting && status == Ingesting && next == ReadText)
    || (stage == WriteChunking && status == Chunking && next == WriteExtracting)
    || (stage == WriteExtracting && status == Extracting && next == AskModel)
    || (stage.WriteAssembling? && status == Status.Assembling && next == Assemble(stage.found))
  }

  lemma {:induction false} StatusStep(setup: Setup, s: System, p: ProcId, t: TaskId, j: JobId, row: Row, stage: Stage,
                                      status: Status, next: Stage, lost: bool)
    requires At(s, p, t, j, row, stage) && Writes(stage, status, next)
    ensures var a := WriteStatus(p, t, lost);
      && Enabled(setup, s, a)
      && At(Next(setup, s, a), p, t, j, if lost then row else row.(status := status), next)
  {
  }

  lemma {:induction false} TextStep(setup: Setup, s: System, p: ProcId, t: TaskId, j: JobId, row: Row)
    requires At(s, p, t, j, row, ReadText)
    ensures Enabled(setup, s, GetText(p, t)) && At(Next(setup, s, GetText(p, t)), p, t, j, row, WriteChunking)
  {
  }

  lemma {:induction false} AnswersStep(setup: Setup, s: System, p: ProcId, t: TaskId, j: JobId, row: Row,
                                       found: seq<Fields>)
    requires At(s, p, t, j, row, AskModel) && found != []
    ensures var a := GetAnswers(p, t, found);
      Enabled(setup, s, a) && At(Next(setup, s, a), p, t, j, row, WriteAssembling(found))
  {
  }

  lemma {:induction false} MergeStep(setup: Setup, s: System, p: ProcId, t: TaskId, j: JobId, row: Row,
                                     found: seq<Fields>)
    requires At(s, p, t, j, row, Assemble(found))
    ensures var a := DoMerge(p, t);
      && Enabled(setup, s, a)
      && At(Next(setup, s, a), p, t, j, row,
            Store(Merge.Merged(found, Properties(setup.parse(row.schema)))))
  {
  }

  lemma {:induction false} SetStep(setup: Setup, s: System, p: ProcId, t: TaskId, j: JobId, row: Row, result: Fields)
    requires At(s, p, t, j, row, Store(result))
    ensures var a, key := SetCache(p, t, false), KeyOf(setup, row.doc, row.schema);
      && Enabled(setup, s, a) && At(Next(setup, s, a), p, t, j, row, Finish(result))
      && key in Next(setup, s, a).cache && Next(setup, s, a).cache[key] == result
  {
  }

  /** Completing a job sets its status and its result and nothing else, and ends the goroutine. */
  lemma {:induction false} CompleteStep(setup: Setup, s: System, p: ProcId, t: TaskId, j: JobId, row: Row,
                                        result: Fields)
    requires At(s, p, t, j, row, Finish(result))
    ensures var a := Complete(p, t);
      && Enabled(setup, s, a)
      && var s' := Next(setup, s, a);
         && s'.table.rows == s.table.rows[j := Row(Completed, row.createdAt, row.doc, row.schema, Some(result))]
         && s'.table.locks == s.table.locks && s'.cache == s.cache && !Running(s', p, t)
  {
  }

  predicate CanErr(stage: Stage) {
    stage == Start || stage == ReadText || stage == AskModel || stage.Assemble? || stage.Finish?
  }

  lemma {:induction false} ErrorStep(setup: Setup, s: System, p: ProcId, t: TaskId, j: JobId, row: Row, stage: Stage)
    requires At(s, p, t, j, row, stage) && CanErr(stage)
    ensures Enabled(setup, s, Error(p, t)) && At(Next(setup, s, Error(p, t)), p, t, j, row, Failing)
  {
  }

  lemma {:induction false} FailStep(setup: Setup, s: System, p: ProcId, t: TaskId, j: JobId, row: Row)
    requires At(s, p, t, j, row, Failing)
    ensures var a := Fail(p, t, false);
      && Enabled(setup, s, a)
      && var s' := Next(setup, s, a);
         && s'.table.rows == s.table.rows[j := row.(status := Failed)]
         && s'.table.locks == s.table.locks && s'.cache == s.cache && !Running(s', p, t)
  {
  }

  // --- Whole jobs ---

  /** The statuses that a job's row goes through. */
  predicate Passes(states: seq<System>, j: JobId, statuses: seq<Status>) {
    && |states| == |statuses|
    && forall i :: 0 <= i < |states| ==> j in states[i].table.rows && states[i].table.rows[j].status == statuses[i]
  }

  /** One more step of a trace. */
  lemma {:induction false} Onward(setup: Setup, run: seq<Action>, states: seq<System>, j: JobId, statuses: seq<Status>,
                                  a: Action, status: Status)
    returns (run': seq<Action>, states': seq<System>, statuses': seq<Status>)
    requires Trace(setup, run, states) && Passes(states, j, statuses) && Enabled(setup, states[|run|], a)
    requires var s' := Next(setup, states[|run|], a); j in s'.table.rows && s'.table.rows[j].status == status
    ensures Trace(setup, run', states') && Passes(states', j, statuses') && states'[0] == states[0]
    ensures |run'| == |run| + 1 && states'[|run'|] == Next(setup, states[|run|], a)
    ensures statuses' == statuses + [status]
  {
    hide Enabled, Next, StepAt;
    TraceAppend(setup, run, states, a);
    run', states', statuses' := run + [a], states + [Next(setup, states[|run|], a)], statuses + [status];
  }

  /** From a free worker to a goroutine that has just begun. */
  lemma {:induction false} Begun(setup: Setup, s: System, p: ProcId, t: TaskId, j: JobId)
    returns (run: seq<Action>, states: seq<System>, statuses: seq<Status>)
    requires Free(setup, s, p, t, j)
    ensures Trace(setup, run, states) && Passes(states, j, statuses) && states[0] == s
    ensures statuses == [Pending, Pending, Ingesting, Ingesting]
    ensures At(states[|run|], p, t, j, s.table.rows[j].(status := Ingesting), Start)
    ensures states[|run|].cache == s.cache
  {
    hide Enabled, Next, StepAt;
    TraceStart(s, setup);
    run, states, statuses := [], [s], [Pending];
    SelectStep(setup, s, p, t, j);
    run, states, statuses := Onward(setup, run, states, j, statuses, Select(p, j), Pending);
    CommitStep(setup, states[1], p, j);
    run, states, statuses := Onward(setup, run, states, j, statuses, Commit(p), Ingesting);
    SpawnStep(setup, states[2], p, t, j, s.table.rows[j].(status := Ingesting));
    run, states, statuses := Onward(setup, run, states, j, statuses, Spawn(p, t), Ingesting);
  }

  /** One more step of a goroutine. */
  lemma {:induction false} AtOnward(setup: Setup, run: seq<Action>, states: seq<System>, statuses: seq<Status>,
                                    a: Action, p: ProcId, t: TaskId, j: JobId, row: Row, stage: Stage)
    returns (run': seq<Action>, states': seq<System>, statuses': seq<Status>)
    requires Trace(setup, run, states) && Passes(states, j, statuses) && Enabled(setup, states[|run|], a)
    requires At(Next(setup, states[|run|], a), p, t, j, row, stage)
    ensures Trace(setup, run', states') && Passes(states', j, statuses') && states'[0] == states[0]
    ensures At(states'[|run'|], p, t, j, row, stage) && states'[|run'|] == Next(setup, states[|run|], a)
    ensures statuses' == statuses + [row.status]
  {
    hide Enabled, Next, StepAt;
    run', states', statuses' := Onward(setup, run, states, j, statuses, a, row.status);
  }

  /** The long way, first half: from the lookup that misses to the model's answers. */
  lemma {:induction false} Extracted(setup: Setup, s: System, p: ProcId, t: TaskId, j: JobId, found: seq<Fields>)
    returns (run: seq<Action>, states: seq<System>, statuses: seq<Status>)
    requires Free(setup, s, p, t, j) && found != []
    ensures Trace(setup, run, states) && Passes(states, j, statuses) && states[0] == s
    ensures statuses == [Pending, Pending, Ingesting, Ingesting, Ingesting, Ingesting, Ingesting,
                         Chunking, Extracting, Extracting]
    ensures At(states[|run|], p, t, j, s.table.rows[j].(status := Extracting), WriteAssembling(found))
  {
    hide Enabled, Next, StepAt, At, Passes;
    var row := s.table.rows[j];
    var r1, r2, r3 := row.(status := Ingesting), row.(status := Chunking), row.(status := Extracting);
    run, states, statuses := Begun(setup, s, p, t, j);
    MissStep(setup, states[|run|], p, t, j, r1);
    run, states, statuses := AtOnward(setup, run, states, statuses, LookUp(p, t, false), p, t, j, r1, WriteIngesting);
    StatusStep(setup, states[|run|], p, t, j, r1, WriteIngesting, Ingesting, ReadText, false);
    run, states, statuses := AtOnward(setup, run, states, statuses, WriteStatus(p, t, false), p, t, j, r1, ReadText);
    TextStep(setup, states[|run|], p, t, j, r1);
    run, states, statuses := AtOnward(setup, run, states, statuses, GetText(p, t), p, t, j, r1, WriteChunking);
    StatusStep(setup, states[|run|], p, t, j, r1, WriteChunking, Chunking, WriteExtracting, false);
    run, states, statuses := AtOnward(setup, run, states, statuses, WriteStatus(p, t, false), p, t, j,
                                        r2, WriteExtracting);
    StatusStep(setup, states[|run|], p, t, j, r2, WriteExtracting, Extracting, AskModel, false);
    run, states, statuses := AtOnward(setup, run, states, statuses, WriteStatus(p, t, false), p, t, j, r3, AskModel);
    AnswersStep(setup, states[|run|], p, t, j, r3, found);
    run, states, statuses := AtOnward(setup, run, states, statuses, GetAnswers(p, t, found), p, t, j,
                                        r3, WriteAssembling(found));
  }

  /** And from there to the merged result, which is then in the cache as well. */
  lemma {:induction false} Merged(setup: Setup, s: System, p: ProcId, t: TaskId, j: JobId, found: seq<Fields>)
    returns (run: seq<Action>, states: seq<System>, statuses: seq<Status>)
    requires Free(setup, s, p, t, j) && found != []
    ensures Trace(setup, run, states) && Passes(states, j, statuses) && states[0] == s
    ensures statuses == [Pending, Pending, Ingesting, Ingesting, Ingesting, Ingesting, Ingesting,
                         Chunking, Extracting, Extracting, Status.Assembling, Status.Assembling, Status.Assembling]
    ensures var row := s.table.rows[j];
      var key, result := KeyOf(setup, row.doc, row.schema), Merge.Merged(found, Properties(setup.parse(row.schema)));
      && At(states[|run|], p, t, j, row.(status := Status.Assembling), Finish(result))
      && key in states[|run|].cache && states[|run|].cache[key] == result
  {
    hide Enabled, Next, StepAt, At, Passes;
    var row := s.table.rows[j];
    var r3, r4 := row.(status := Extracting), row.(status := Status.Assembling);
    var result := Merge.Merged(found, Properties(setup.parse(row.schema)));
    run, states, statuses := Extracted(setup, s, p, t, j, found);
    StatusStep(setup, states[|run|], p, t, j, r3, WriteAssembling(found), Status.Assembling, Assemble(found), false);
    run, states, statuses := AtOnward(setup, run, states, statuses, WriteStatus(p, t, false), p, t, j,
                                        r4, Assemble(found));
    MergeStep(setup, states[|run|], p, t, j, r4, found);
    run, states, statuses := AtOnward(setup, run, states, statuses, DoMerge(p, t), p, t, j, r4, Store(result));
    SetStep(setup, states[|run|], p, t, j, r4, result);
    run, states, statuses := AtOnward(setup, run, states, statuses, SetCache(p, t, false), p, t, j, r4, Finish(result));
  }

  /** Completing by way of the model: from any state in which a worker is free, a pending job can go through
      every status in order and be completed with the merge of any non-empty list of answers, and the cache
      then holds that result under its key. */
  lemma {:induction false} JobCompletes(setup: Setup, s: System, p: ProcId, t: TaskId, j: JobId, found: seq<Fields>)
    returns (run: seq<Action>, states: seq<System>)
    requires Free(setup, s, p, t, j) && found != []
    ensures Possible(setup, s, run) && states != [] && After(setup, s, run) == states[|states| - 1]
    ensures Passes(states, j, [Pending, Pending, Ingesting, Ingesting, Ingesting, Ingesting, Ingesting,
                               Chunking, Extracting, Extracting,
                               Status.Assembling, Status.Assembling, Status.Assembling, Completed])
    ensures var row, s' := s.table.rows[j], After(setup, s, run);
      var key, result := KeyOf(setup, row.doc, row.schema), Merge.Merged(found, Properties(setup.parse(row.schema)));
      && j in s'.table.rows && s'.table.rows[j] == Row(Completed, row.createdAt, row.doc, row.schema, Some(result))
      && key in s'.cache && s'.cache[key] == result
  {
    hide Enabled, Next, StepAt, At;
    var statuses;
    run, states, statuses := Merged(setup, s, p, t, j, found);
    var row := s.table.rows[j];
    var result := Merge.Merged(found, Properties(setup.parse(row.schema)));
    CompleteStep(setup, states[|run|], p, t, j, row.(status := Status.Assembling), result);
    run, states, statuses := Onward(setup, run, states, j, statuses, Complete(p, t), Completed);
    TraceIsRun(setup, run, states);
  }

  /** Completing from the cache: if there is an entry under the job's key, the job can be completed with
      exactly that, without asking anyone. */
  lemma {:induction false} JobServed(setup: Setup, s: System, p: ProcId, t: TaskId, j: JobId)
    returns (run: seq<Action>, states: seq<System>)
    requires Free(setup, s, p, t, j) && KeyOf(setup, s.table.rows[j].doc, s.table.rows[j].schema) in s.cache
    ensures Possible(setup, s, run) && states != [] && After(setup, s, run) == states[|states| - 1]
    ensures Passes(states, j, [Pending, Pending, Ingesting, Ingesting, Ingesting, Completed])
    ensures var row, s' := s.table.rows[j], After(setup, s, run);
      && j in s'.table.rows
      && s'.table.rows[j] ==
           Row(Completed, row.createdAt, row.doc, row.schema, Some(s.cache[KeyOf(setup, row.doc, row.schema)]))
  {
    hide Enabled, Next, StepAt, At;
    var row, statuses := s.table.rows[j], [];
    var r1, result := row.(status := Ingesting), s.cache[KeyOf(setup, row.doc, row.schema)];
    run, states, statuses := Begun(setup, s, p, t, j);
    HitStep(setup, states[|run|], p, t, j, r1);
    run, states, statuses := AtOnward(setup, run, states, statuses, LookUp(p, t, true), p, t, j, r1, Finish(result));
    CompleteStep(setup, states[|run|], p, t, j, r1, result);
    run, states, statuses := Onward(setup, run, states, j, statuses, Complete(p, t), Completed);
    TraceIsRun(setup, run, states);
  }

  /** Failing: the download may fail, and the job with it. */
  lemma {:induction false} JobFails(setup: Setup, s: System, p: ProcId, t: TaskId, j: JobId)
    returns (run: seq<Action>, states: seq<System>)
    requires Free(setup, s, p, t, j)
    ensures Possible(setup, s, run) && states != [] && After(setup, s, run) == states[|states| - 1]
    ensures Passes(states, j, [Pending, Pending, Ingesting, Ingesting, Ingesting, Failed])
    ensures var s' := After(setup, s, run);
      j in s'.table.rows && s'.table.rows[j] == s.table.rows[j].(status := Failed)
  {
    hide Enabled, Next, StepAt, At;
    var r1, statuses := s.table.rows[j].(status := Ingesting), [];
    run, states, statuses := Begun(setup, s, p, t, j);
    ErrorStep(setup, states[|run|], p, t, j, r1, Start);
    run, states, statuses := AtOnward(setup, run, states, statuses, Error(p, t), p, t, j, r1, Failing);
    FailStep(setup, states[|run|], p, t, j, r1);
    run, states, statuses := Onward(setup, run, states, j, statuses, Fail(p, t, false), Failed);
    TraceIsRun(setup, run, states);
  }

  // --- From the very beginning ---

  /** A system with one worker and one pending job. */
  lemma {:induction false} Prepared(setup: Setup, p: ProcId, j: JobId, createdAt: int, doc: Bytes, schema: Bytes)
    returns (run: seq<Action>)
    requires JsonText.JsonObject(schema) && setup.concurrency(p) > 0
    ensures Possible(setup, INITIAL, run)
    ensures var s := After(setup, INITIAL, run);
      Free(setup, s, p, 0, j) && s.table.rows == map[j := Row(Pending, createdAt, doc, schema, None)]
  {
    var submit, launch := Submit(j, createdAt, doc, schema), Launch(p);
    SubmitEnabled(setup, INITIAL, j, createdAt, doc, schema);
    var s1 := Next(setup, INITIAL, submit);
    var s2 := Next(setup, s1, launch);
    TraceStart(INITIAL, setup);
    TraceAppend(setup, [], [INITIAL], submit);
    TraceAppend(setup, [] + [submit], [INITIAL] + [s1], launch);
    run := [] + [submit] + [launch];
    TraceIsRun(setup, run, [INITIAL] + [s1] + [s2]);
  }

  /** So there is a run from the beginning to a completed job, for every document, every JSON object as its
      schema and every non-empty list of answers. */
  lemma {:induction false} SomeJobCompletes(setup: Setup, p: ProcId, j: JobId, createdAt: int, doc: Bytes,
                                            schema: Bytes, found: seq<Fields>) returns (run: seq<Action>)
    requires JsonText.JsonObject(schema) && setup.concurrency(p) > 0 && found != []
    ensures Possible(setup, INITIAL, run)
    ensures var s := After(setup, INITIAL, run);
      && j in s.table.rows
      && s.table.rows[j] == Row(Completed, createdAt, doc, schema,
                                Some(Merge.Merged(found, Properties(setup.parse(schema)))))
  {
    var first := Prepared(setup, p, j, createdAt, doc, schema);
    var second, states := JobCompletes(setup, After(setup, INITIAL, first), p, 0, j, found);
    RunsJoin(setup, INITIAL, first, second);
    run := first + second;
  }

  // --- In every reachable state ---

  /** Whatever a completing goroutine holds in any reachable state is what its job's row says afterwards. */
  lemma {:induction false} CompletionIsRecorded(setup: Setup, run: seq<Action>, p: ProcId, t: TaskId)
    requires Possible(setup, INITIAL, run) && Enabled(setup, After(setup, INITIAL, run), Complete(p, t))
    ensures var s := After(setup, INITIAL, run);
      var task, s' := TaskOf(s, p, t), Next(setup, s, Complete(p, t));
      && StageOf(s, p, t).Finish? && task.job in s.table.rows && task.job in s'.table.rows
      && s'.table.rows == s.table.rows[task.job := s'.table.rows[task.job]]
      && s'.table.rows[task.job].status == Completed && s'.table.rows[task.job].result == Some(StageOf(s, p, t).result)
  {
    InitialSafe(setup);
    RunKeeps(setup, INITIAL, run);
    var s := After(setup, INITIAL, run);
    assert TaskOk(s, p, t);
    var task := TaskOf(s, p, t);
    CompleteStep(setup, s, p, t, task.job, s.table.rows[task.job], StageOf(s, p, t).result);
  }

  // --- What can happen at any time ---

  /** A process that is not there can be started, and one that is can die, which rolls back its open claim;
      an entry of the cache can go; and a commit can go through unheard. */
  lemma {:induction false} FaultSteps(setup: Setup, s: System, p: ProcId, key: Digest)
    ensures p !in s.procs ==>
      Enabled(setup, s, Launch(p)) && Next(setup, s, Launch(p)) == s.(procs := s.procs[p := Proc(Polling, map[])])
    ensures p in s.procs ==>
      && Enabled(setup, s, Crash(p))
      && var s' := Next(setup, s, Crash(p));
         && s'.procs == s.procs - {p} && s'.table.rows == s.table.rows && s'.cache == s.cache
         && forall j :: j in s'.table.locks <==> j in s.table.locks && s.table.locks[j] != p
    ensures key in s.cache ==>
      Enabled(setup, s, Evict(key)) && Next(setup, s, Evict(key)) == s.(cache := s.cache - {key})
    ensures p in s.procs && s.procs[p].loop.Selected? && s.procs[p].loop.job in s.table.rows ==>
      && Enabled(setup, s, CommitUnheard(p))
      && var j, s' := s.procs[p].loop.job, Next(setup, s, CommitUnheard(p));
         && s'.procs == s.procs[p := Proc(Polling, s.procs[p].tasks)] && s'.table.locks == s.table.locks - {j}
         && s'.table.rows == s.table.rows[j := s.table.rows[j].(status := Ingesting)]
  {
  }

  // --- Shutting down ---

  lemma {:induction false} DrainStep(setup: Setup, s: System, p: ProcId)
    requires p in s.procs && s.procs[p].loop == Polling
    ensures Enabled(setup, s, BeginDrain(p))
    ensures Next(setup, s, BeginDrain(p)) == s.(procs := s.procs[p := Proc(Draining(0), s.procs[p].tasks)])
  {
  }

  /** An idle worker that is draining takes back one slot after the other until it has them all. */
  lemma {:induction false} TakesAll(setup: Setup, s: System, p: ProcId, n: nat) returns (run: seq<Action>)
    requires p in s.procs && s.procs[p] == Proc(Draining(n), map[]) && n <= setup.concurrency(p)
    ensures Possible(setup, s, run)
    ensures After(setup, s, run) == s.(procs := s.procs[p := Proc(Stopped, map[])])
    decreases setup.concurrency(p) - n
  {
    var a := if n == setup.concurrency(p) then Stop(p) else TakeBack(p);
    var s' := Next(setup, s, a);
    run := [];
    if n < setup.concurrency(p) {
      run := TakesAll(setup, s', p, n + 1);
      assert s'.(procs := s'.procs[p := Proc(Stopped, map[])]) == s.(procs := s.procs[p := Proc(Stopped, map[])]);
    }
    assert ([a] + run)[1..] == run;
    run := [a] + run;
  }

  /** So an idle worker can always stop. */
  lemma {:induction false} IdleStops(setup: Setup, s: System, p: ProcId) returns (run: seq<Action>)
    requires p in s.procs && s.procs[p] == Proc(Polling, map[])
    ensures Possible(setup, s, run)
    ensures After(setup, s, run) == s.(procs := s.procs[p := Proc(Stopped, map[])])
  {
    DrainStep(setup, s, p);
    var s' := Next(setup, s, BeginDrain(p));
    var rest := TakesAll(setup, s', p, 0);
    run := [BeginDrain(p)] + rest;
    assert run[1..] == rest;
    assert s'.(procs := s'.procs[p := Proc(Stopped, map[])]) == s.(procs := s.procs[p := Proc(Stopped, map[])]);
  }
}
