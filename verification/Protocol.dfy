/** Any number of worker processes over one job table and one result cache, as a transition system. */
module Protocol {
  import opened Json
  import opened CacheKey
  import opened JobTable
  import Merge

  type TaskId = nat
  type Digest = nat

  /** What stays fixed in a run: the hash behind the cache key, the decoding of schemas, and the number
      of jobs each process may run at once. */
  datatype Setup = Setup(hash: Bytes -> Digest, parse: Bytes -> Option<Value>, concurrency: ProcId -> nat)

  function KeyOf(setup: Setup, doc: Bytes, schema: Bytes): Digest {
    setup.hash(Frame(doc, schema))
  }

  ghost predicate HashInjective(setup: Setup) {
    forall a, b :: setup.hash(a) == setup.hash(b) ==> a == b
  }

  /** One merge that took place: the results of a document's chunks, put together for its schema. */
  datatype Assembly = Assembly(doc: Bytes, schema: Bytes, results: seq<Fields>)

  function ResultOf(setup: Setup, a: Assembly): Fields {
    Merge.Merged(a.results, Properties(setup.parse(a.schema)))
  }

  // --- The state of a worker process ---

  /** Where the processing of a job stands: what it will do next. */
  datatype Stage =
    | Start                                  // download, look up the cache
    | WriteIngesting
    | ReadText
    | WriteChunking
    | WriteExtracting
    | AskModel
    | WriteAssembling(found: seq<Fields>)
    | Assemble(found: seq<Fields>)
    | Store(result: Fields)
    | Finish(result: Fields)
    | Failing

  /** A job goroutine, with the job as it was read when claimed. */
  datatype Task = Task(job: JobId, doc: Bytes, schema: Bytes, stage: Stage)

  /** Where the process's main loop stands. */
  datatype Loop =
    | Polling
    | Selected(job: JobId, doc: Bytes, schema: Bytes)  // claim transaction open, row locked
    | Claimed(job: JobId, doc: Bytes, schema: Bytes)   // claim committed, waiting for a semaphore slot
    | Draining(acquired: nat)                          // shutting down, slots taken back so far
    | Stopped

  datatype Proc = Proc(loop: Loop, tasks: map<TaskId, Task>)

  /** The semaphore's channel holds one token for each goroutine and each slot taken back. */
  function Tokens(proc: Proc): nat {
    |proc.tasks| + (if proc.loop.Draining? then proc.loop.acquired else 0)
  }

  datatype Slot = Main | Slot(task: TaskId)

  /** The whole system. The last three fields are history, kept for the theorems only: who last claimed a
      job, the claims in the order of their commits, and the merges that took place. */
  datatype System = System(
    table: Table, procs: map<ProcId, Proc>, cache: map<Digest, Fields>,
    owner: map<JobId, (ProcId, Slot)>, claims: seq<JobId>, assembled: set<Assembly>)

  const INITIAL := System(Table(map[], map[]), map[], map[], map[], [], {})

  // --- The steps ---

  datatype Action =
    | Submit(j: JobId, createdAt: int, doc: Bytes, schema: Bytes)
    | Launch(p: ProcId)
    | Crash(p: ProcId)
    | Select(p: ProcId, j: JobId)
    | Abort(p: ProcId)
    | Commit(p: ProcId)
    | CommitUnheard(p: ProcId)
    | Spawn(p: ProcId, t: TaskId)
    | LookUp(p: ProcId, t: TaskId, hit: bool)
    | WriteStatus(p: ProcId, t: TaskId, lost: bool)
    | GetText(p: ProcId, t: TaskId)
    | GetAnswers(p: ProcId, t: TaskId, found: seq<Fields>)
    | DoMerge(p: ProcId, t: TaskId)
    | SetCache(p: ProcId, t: TaskId, lost: bool)
    | Complete(p: ProcId, t: TaskId)
    | Error(p: ProcId, t: TaskId)
    | Fail(p: ProcId, t: TaskId, lost: bool)
    | Evict(key: Digest)
    | BeginDrain(p: ProcId)
    | TakeBack(p: ProcId)
    | Stop(p: ProcId)

  predicate Running(s: System, p: ProcId, t: TaskId) {
    p in s.procs && t in s.procs[p].tasks
  }

  function TaskOf(s: System, p: ProcId, t: TaskId): Task
    requires Running(s, p, t)
  {
    s.procs[p].tasks[t]
  }

  function StageOf(s: System, p: ProcId, t: TaskId): Stage
    requires Running(s, p, t)
  {
    TaskOf(s, p, t).stage
  }

  /** The status that a stage writes. */
  function StatusWritten(stage: Stage): Option<Status> {
    match stage
    case WriteIngesting => Some(Ingesting)
    case WriteChunking => Some(Chunking)
    case WriteExtracting => Some(Extracting)
    case WriteAssembling(_) => Some(Assembling)
    case _ => None
  }

  function AfterWrite(stage: Stage): Stage {
    match stage
    case WriteIngesting => ReadText
    case WriteChunking => WriteExtracting
    case WriteExtracting => AskModel
    case WriteAssembling(found) => Assemble(found)
    case _ => stage
  }

  predicate Enabled(setup: Setup, s: System, a: Action) {
    match a
    case Submit(j, _, _, schema) => j !in s.table.rows && Lexical(schema)
    case Launch(p) => p !in s.procs
    case Crash(p) => p in s.procs
    case Select(p, j) => p in s.procs && s.procs[p].loop.Polling? && Claimable(s.table, j)
    case Abort(p) => p in s.procs && s.procs[p].loop.Selected?
    case Commit(p) => p in s.procs && s.procs[p].loop.Selected?
    case CommitUnheard(p) => p in s.procs && s.procs[p].loop.Selected?
    case Spawn(p, t) =>
      && p in s.procs && s.procs[p].loop.Claimed? && t !in s.procs[p].tasks
      && Tokens(s.procs[p]) < setup.concurrency(p)
    case LookUp(p, t, hit) =>
      && Running(s, p, t) && StageOf(s, p, t).Start?
      && (hit ==> KeyOf(setup, TaskOf(s, p, t).doc, TaskOf(s, p, t).schema) in s.cache)
    case WriteStatus(p, t, _) => Running(s, p, t) && StatusWritten(StageOf(s, p, t)).Some?
    case GetText(p, t) => Running(s, p, t) && StageOf(s, p, t).ReadText?
    case GetAnswers(p, t, found) => Running(s, p, t) && StageOf(s, p, t).AskModel? && found != []
    case DoMerge(p, t) => Running(s, p, t) && StageOf(s, p, t).Assemble?
    case SetCache(p, t, _) => Running(s, p, t) && StageOf(s, p, t).Store?
    case Complete(p, t) => Running(s, p, t) && StageOf(s, p, t).Finish?
    case Error(p, t) =>
      && Running(s, p, t)
      && (var g := StageOf(s, p, t); g.Start? || g.ReadText? || g.AskModel? || g.Assemble? || g.Finish?)
    case Fail(p, t, _) => Running(s, p, t) && StageOf(s, p, t).Failing?
    case Evict(key) => key in s.cache
    case BeginDrain(p) => p in s.procs && s.procs[p].loop.Polling?
    case TakeBack(p) =>
      && p in s.procs && s.procs[p].loop.Draining?
      && s.procs[p].loop.acquired < setup.concurrency(p) && Tokens(s.procs[p]) < setup.concurrency(p)
    case Stop(p) => p in s.procs && s.procs[p].loop.Draining? && s.procs[p].loop.acquired == setup.concurrency(p)
  }

  function SetLoop(s: System, p: ProcId, loop: Loop): System
    requires p in s.procs
  {
    s.(procs := s.procs[p := s.procs[p].(loop := loop)])
  }

  function SetStage(s: System, p: ProcId, t: TaskId, stage: Stage): System
    requires Running(s, p, t)
  {
    s.(procs := s.procs[p := s.procs[p].(tasks := s.procs[p].tasks[t := TaskOf(s, p, t).(stage := stage)])])
  }

  /** The goroutine ends and gives its semaphore slot back. */
  function EndTask(s: System, p: ProcId, t: TaskId): System
    requires Running(s, p, t)
  {
    s.(procs := s.procs[p := s.procs[p].(tasks := s.procs[p].tasks - {t})])
  }

  /** The locks that are left when a process dies and its open transaction is rolled back. */
  function LocksWithout(locks: map<JobId, ProcId>, p: ProcId): map<JobId, ProcId> {
    map j | j in locks && locks[j] != p :: locks[j]
  }

  function Next(setup: Setup, s: System, a: Action): System
    requires Enabled(setup, s, a)
  {
    match a
    case Submit(j, createdAt, doc, schema) => s.(table := Inserted(s.table, j, createdAt, doc, schema))
    case Launch(p) => s.(procs := s.procs[p := Proc(Polling, map[])])
    case Crash(p) =>
      s.(procs := s.procs - {p}, table := s.table.(locks := LocksWithout(s.table.locks, p)))
    case Select(p, j) =>
      SetLoop(s, p, Selected(j, s.table.rows[j].doc, s.table.rows[j].schema)).(table := Locked(s.table, j, p))
    case Abort(p) => SetLoop(s, p, Polling).(table := Unlocked(s.table, s.procs[p].loop.job))
    case Commit(p) =>
      var loop := s.procs[p].loop;
      SetLoop(s, p, Claimed(loop.job, loop.doc, loop.schema))
        .(table := Unlocked(WithStatus(s.table, loop.job, Ingesting), loop.job),
          owner := s.owner[loop.job := (p, Main)], claims := s.claims + [loop.job])
    case CommitUnheard(p) =>
      var loop := s.procs[p].loop;
      SetLoop(s, p, Polling)
        .(table := Unlocked(WithStatus(s.table, loop.job, Ingesting), loop.job), claims := s.claims + [loop.job])
    case Spawn(p, t) =>
      var loop := s.procs[p].loop;
      s.(procs := s.procs[p := Proc(Polling, s.procs[p].tasks[t := Task(loop.job, loop.doc, loop.schema, Start)])],
         owner := s.owner[loop.job := (p, Slot(t))])
    case LookUp(p, t, hit) =>
      var key := KeyOf(setup, TaskOf(s, p, t).doc, TaskOf(s, p, t).schema);
      SetStage(s, p, t, if hit then Finish(s.cache[key]) else WriteIngesting)
    case WriteStatus(p, t, lost) =>
      var stage := StageOf(s, p, t);
      SetStage(s, p, t, AfterWrite(stage))
        .(table := if lost then s.table else WithStatus(s.table, TaskOf(s, p, t).job, StatusWritten(stage).value))
    case GetText(p, t) => SetStage(s, p, t, WriteChunking)
    case GetAnswers(p, t, found) => SetStage(s, p, t, WriteAssembling(found))
    case DoMerge(p, t) =>
      var assembly := Assembly(TaskOf(s, p, t).doc, TaskOf(s, p, t).schema, StageOf(s, p, t).found);
      SetStage(s, p, t, Store(ResultOf(setup, assembly))).(assembled := s.assembled + {assembly})
    case SetCache(p, t, lost) =>
      var task := TaskOf(s, p, t);
      SetStage(s, p, t, Finish(task.stage.result))
        .(cache := if lost then s.cache else s.cache[KeyOf(setup, task.doc, task.schema) := task.stage.result])
    case Complete(p, t) =>
      EndTask(s, p, t).(table := WithResult(s.table, TaskOf(s, p, t).job, StageOf(s, p, t).result))
    case Error(p, t) => SetStage(s, p, t, Failing)
    case Fail(p, t, lost) =>
      EndTask(s, p, t).(table := if lost then s.table else WithStatus(s.table, TaskOf(s, p, t).job, Failed))
    case Evict(key) => s.(cache := s.cache - {key})
    case BeginDrain(p) => SetLoop(s, p, Draining(0))
    case TakeBack(p) => SetLoop(s, p, Draining(s.procs[p].loop.acquired + 1))
    case Stop(p) => SetLoop(s, p, Stopped)
  }

  /** A run is any sequence of enabled steps. */
  predicate Possible(setup: Setup, s: System, run: seq<Action>)
    decreases |run|
  {
    run == [] || (Enabled(setup, s, run[0]) && Possible(setup, Next(setup, s, run[0]), run[1..]))
  }

  function After(setup: Setup, s: System, run: seq<Action>): System
    requires Possible(setup, s, run)
    decreases |run|
  {
    if run == [] then s else After(setup, Next(setup, s, run[0]), run[1..])
  }
}
