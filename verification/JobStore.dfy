/** The job table: its rows, the row locks that open claims hold, and the store's operations on it. */
module JobTable {
  import opened Json
  import opened CacheKey

  datatype Status = Pending | Ingesting | Chunking | Extracting | Assembling | Completed | Failed

  /** How far a job has come; the two terminal statuses rank alike. */
  function Rank(s: Status): nat {
    match s
    case Pending => 0
    case Ingesting => 1
    case Chunking => 2
    case Extracting => 3
    case Assembling => 4
    case Completed => 5
    case Failed => 5
  }

  /** The order of the pipeline. */
  lemma {:induction false} RankOrder(s: Status)
    ensures Rank(Pending) < Rank(Ingesting) < Rank(Chunking) < Rank(Extracting) < Rank(Assembling) < Rank(Completed)
    ensures Rank(Completed) == Rank(Failed)
    ensures Terminal(s) <==> s == Completed || s == Failed
  {
  }

  predicate Terminal(s: Status) {
    s.Completed? || s.Failed?
  }

  type JobId = nat
  type ProcId = nat

  datatype Row = Row(status: Status, createdAt: int, doc: Bytes, schema: Bytes, result: Option<Fields>)

  datatype Table = Table(rows: map<JobId, Row>, locks: map<JobId, ProcId>)

  /** What `WHERE status = 'pending' ... FOR UPDATE SKIP LOCKED` lets a claim choose from. */
  predicate Claimable(t: Table, j: JobId) {
    j in t.rows && t.rows[j].status == Pending && j !in t.locks
  }

  predicate Oldest(t: Table, j: JobId) {
    Claimable(t, j) && forall k :: k in t.rows && Claimable(t, k) ==> t.rows[j].createdAt <= t.rows[k].createdAt
  }

  function Inserted(t: Table, j: JobId, createdAt: int, doc: Bytes, schema: Bytes): Table {
    t.(rows := t.rows[j := Row(Pending, createdAt, doc, schema, None)])
  }

  function Locked(t: Table, j: JobId, p: ProcId): Table {
    t.(locks := t.locks[j := p])
  }

  function Unlocked(t: Table, j: JobId): Table {
    t.(locks := t.locks - {j})
  }

  /** The statements below update by id only: no row, no effect, and no look at the old status. */
  function WithStatus(t: Table, j: JobId, s: Status): Table {
    if j in t.rows then t.(rows := t.rows[j := t.rows[j].(status := s)]) else t
  }

  function WithResult(t: Table, j: JobId, result: Fields): Table {
    if j in t.rows then t.(rows := t.rows[j := t.rows[j].(status := Completed, result := Some(result))]) else t
  }
}

/** The store as an object whose operations change the table in place. */
module JobStore {
  import opened Json
  import opened CacheKey
  import opened JobTable

  /** Where a claim's transaction can go wrong. */
  datatype ClaimFault = NoFault | BeginFails | QueryFails | ExecFails | CommitFails | CommitUnheard

  /** What a claim that goes through does: the oldest claimable job leaves pending. */
  predicate Moved(before: Table, j: JobId, after: Table) {
    Oldest(before, j) && after == WithStatus(before, j, Ingesting)
  }

  /** Nothing but one row is touched. */
  predicate OnlyRow(before: Table, after: Table, j: JobId) {
    && after.locks == before.locks && after.rows.Keys == before.rows.Keys + {j}
    && forall k :: k in before.rows && k != j ==> after.rows[k] == before.rows[k]
  }

  /** That row exists and has a given status now; all else about it is as before. */
  predicate StatusOnly(before: Table, after: Table, j: JobId, s: Status) {
    && OnlyRow(before, after, j) && j in before.rows
    && after.rows[j].status == s && after.rows[j].result == before.rows[j].result
    && after.rows[j].createdAt == before.rows[j].createdAt
    && after.rows[j].doc == before.rows[j].doc && after.rows[j].schema == before.rows[j].schema
  }

  class Store {
    var rows: map<JobId, Row>
    var locks: map<JobId, ProcId>

    function Contents(): Table
      reads this
    {
      Table(rows, locks)
    }

    constructor ()
      ensures Contents() == Table(map[], map[])
    {
      rows, locks := map[], map[];
    }

    /** An insert fails on an id that is taken, and for any reason of the database's own. */
    method Create(j: JobId, createdAt: int, doc: Bytes, schema: Bytes, refused: bool) returns (ok: bool)
      modifies this
      ensures ok <==> !refused && j !in old(rows)
      ensures Contents() == if ok then Inserted(old(Contents()), j, createdAt, doc, schema) else old(Contents())
      ensures ok ==> OnlyRow(old(Contents()), Contents(), j) && rows[j] == Row(Pending, createdAt, doc, schema, None)
    {
      ok := !refused && j !in rows;
      if ok {
        rows := rows[j := Row(Pending, createdAt, doc, schema, None)];
      }
    }

    /** The claim's query: the oldest pending row that nobody has locked, which it locks. */
    method SelectForUpdate(p: ProcId) returns (job: Option<JobId>)
      modifies this
      ensures job.None? <==> forall j :: j in old(rows) ==> !Claimable(old(Contents()), j)
      ensures job.None? <==> forall j :: j in old(rows) ==> old(rows)[j].status != Pending || j in old(locks)
      ensures match job
        case None => Contents() == old(Contents())
        case Some(j) => Oldest(old(Contents()), j) && Contents() == Locked(old(Contents()), j, p)
      ensures job.Some? ==>
        && job.value in rows && rows[job.value].status == Pending && job.value !in old(locks)
        && (forall j :: j in rows && rows[j].status == Pending && j !in old(locks) ==>
              rows[job.value].createdAt <= rows[j].createdAt)
        && rows == old(rows) && locks == old(locks)[job.value := p]
    {
      var rest := rows.Keys;
      job := None;
      while rest != {}
        invariant rest <= rows.Keys && Contents() == old(Contents())
        invariant job.None? ==> forall j :: j in rows && j !in rest ==> !Claimable(Contents(), j)
        invariant job.Some? ==>
          && Claimable(Contents(), job.value)
          && forall j :: j in rows && j !in rest && Claimable(Contents(), j) ==>
            rows[job.value].createdAt <= rows[j].createdAt
        decreases rest
      {
        var j :| j in rest;
        rest := rest - {j};
        if rows[j].status == Pending && j !in locks {
          if job.None? || rows[j].createdAt < rows[job.value].createdAt {
            job := Some(j);
          }
        }
      }
      if job.Some? {
        locks := locks[job.value := p];
      }
    }

    /** A whole claim that no other claim interrupts: the oldest claimable job moves to ingesting, or the
        transaction is rolled back and the table is as before. A failing query is taken for an empty queue,
        and a commit that goes through unheard leaves a job ingesting that nobody was given. */
    method ClaimNext(p: ProcId, fault: ClaimFault) returns (job: Option<JobId>, failed: bool)
      modifies this
      ensures (job.Some? || (failed && fault == CommitUnheard)) <==>
        (fault == NoFault || fault == CommitUnheard) && exists j :: j in old(rows) && Claimable(old(Contents()), j)
      ensures job.None? && !failed <==>
        fault == QueryFails || (fault != BeginFails && forall j :: j in old(rows) ==> !Claimable(old(Contents()), j))
      ensures job.Some? ==> !failed && Moved(old(Contents()), job.value, Contents())
      ensures job.Some? ==>
        && job.value in old(rows) && old(rows)[job.value].status == Pending && job.value !in old(locks)
        && StatusOnly(old(Contents()), Contents(), job.value, Ingesting)
      ensures failed && fault == CommitUnheard ==> exists j :: Moved(old(Contents()), j, Contents())
      ensures job.None? && !(failed && fault == CommitUnheard) ==> Contents() == old(Contents())
    {
      if fault == BeginFails {
        return None, true;
      }
      if fault == QueryFails {
        return None, false;
      }
      var found := SelectForUpdate(p);
      if found.None? {
        return None, false;
      }
      var j := found.value;
      if fault == ExecFails || fault == CommitFails {
        locks := locks - {j};
        assert locks == old(locks);
        return None, true;
      }
      rows := rows[j := rows[j].(status := Ingesting)];
      locks := locks - {j};
      assert locks == old(locks);
      assert Moved(old(Contents()), j, Contents());
      if fault == CommitUnheard {
        return None, true;
      }
      return Some(j), false;
    }

    /** A status write; its outcome is not looked at, and it may have no effect. */
    method UpdateStatus(j: JobId, s: Status, lost: bool)
      modifies this
      ensures Contents() == if lost then old(Contents()) else WithStatus(old(Contents()), j, s)
      ensures lost || j !in old(rows) ==> Contents() == old(Contents())
      ensures !lost && j in old(rows) ==> StatusOnly(old(Contents()), Contents(), j, s)
    {
      if !lost && j in rows {
        rows := rows[j := rows[j].(status := s)];
      }
    }

    method Fail(j: JobId, lost: bool)
      modifies this
      ensures Contents() == if lost then old(Contents()) else WithStatus(old(Contents()), j, Failed)
      ensures lost || j !in old(rows) ==> Contents() == old(Contents())
      ensures !lost && j in old(rows) ==> StatusOnly(old(Contents()), Contents(), j, Failed)
    {
      if !lost && j in rows {
        rows := rows[j := rows[j].(status := Failed)];
      }
    }

    method Complete(j: JobId, result: Fields, lost: bool) returns (ok: bool)
      modifies this
      ensures ok <==> !lost
      ensures Contents() == if lost then old(Contents()) else WithResult(old(Contents()), j, result)
      ensures lost || j !in old(rows) ==> Contents() == old(Contents())
      ensures !lost && j in old(rows) ==>
        && OnlyRow(old(Contents()), Contents(), j)
        && rows[j].status == Completed && rows[j].result == Some(result)
        && rows[j].createdAt == old(rows)[j].createdAt
        && rows[j].doc == old(rows)[j].doc && rows[j].schema == old(rows)[j].schema
    {
      ok := !lost;
      if !lost && j in rows {
        rows := rows[j := rows[j].(status := Completed, result := Some(result))];
      }
    }
  }
}
