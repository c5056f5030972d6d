/** The jobs table: conditional and unconditional status writes (app/database/repository.py, app/agents/spool.py). */
module JobTable {
  import opened Options

  type JobId = nat
  type CaseId = nat

  /** Agent jobs own the analysis named after them; every other analysis has a fresh identifier. */
  datatype AnalysisId = OfJob(job: JobId) | Fresh(n: nat)

  datatype Status = Queued | Running | Done | Failed | Cancelled
  datatype Job = Job(caseId: CaseId, agent: bool, status: Status, result: Option<AnalysisId>)

  type Rows = map<JobId, Job>

  predicate Active(s: Status) { s.Queued? || s.Running? }

  predicate Is(rows: Rows, id: JobId, s: Status) { id in rows && rows[id].status == s }

  predicate IsActive(rows: Rows, id: JobId) { id in rows && Active(rows[id].status) }

  /** UPDATE jobs SET status=..., result=... WHERE id=...; nothing happens without the row. */
  function Write(rows: Rows, id: JobId, status: Status, result: Option<AnalysisId>): Rows {
    if id in rows then rows[id := rows[id].(status := status, result := result)] else rows
  }

  /** The same UPDATE restricted to rows with an acceptable status, leaving the result column alone. */
  function Start(rows: Rows, id: JobId): Rows {
    if Is(rows, id, Queued) then rows[id := rows[id].(status := Running)] else rows
  }

  function FailActive(rows: Rows, id: JobId): Rows {
    if IsActive(rows, id) then rows[id := rows[id].(status := Failed)] else rows
  }

  function CancelActive(rows: Rows, id: JobId): Rows {
    if IsActive(rows, id) then rows[id := rows[id].(status := Cancelled)] else rows
  }

  function CancelQueued(rows: Rows, id: JobId): Rows {
    if Is(rows, id, Queued) then Write(rows, id, Cancelled, None) else rows
  }

  function Complete(rows: Rows, id: JobId, result: AnalysisId, onlyActive: bool): Rows {
    if onlyActive && !IsActive(rows, id) then rows else Write(rows, id, Done, Some(result))
  }

  /** One row gets a status and a result and keeps its case and kind; every other row stays. */
  ghost predicate Becomes(before: Rows, after: Rows, id: JobId, status: Status, result: Option<AnalysisId>) {
    && id in before && after.Keys == before.Keys
    && after[id] == Job(before[id].caseId, before[id].agent, status, result)
    && forall other | other in before && other != id :: after[other] == before[other]
  }

  class Repository {
    var rows: Rows

    constructor ()
      ensures rows == map[]
    {
      rows := map[];
    }

    method CreateJob(id: JobId, job: Job) returns (ok: bool)
      modifies this
      ensures ok <==> id !in old(rows)
      ensures rows == if ok then old(rows)[id := job] else old(rows)
    {
      ok := id !in rows;
      if ok { rows := rows[id := job]; }
    }

    method StartJobIfQueued(id: JobId) returns (won: bool)
      modifies this
      ensures won <==> Is(old(rows), id, Queued)
      ensures rows == Start(old(rows), id)
      ensures won ==> Becomes(old(rows), rows, id, Running, old(rows)[id].result)
      ensures !won ==> rows == old(rows)
    {
      won := Is(rows, id, Queued);
      if won { rows := rows[id := rows[id].(status := Running)]; }
    }

    method CancelJobIfQueued(id: JobId) returns (won: bool)
      modifies this
      ensures won <==> Is(old(rows), id, Queued)
      ensures rows == CancelQueued(old(rows), id)
      ensures won ==> Becomes(old(rows), rows, id, Cancelled, None)
      ensures !won ==> rows == old(rows)
    {
      won := Is(rows, id, Queued);
      if won { rows := rows[id := rows[id].(status := Cancelled, result := None)]; }
    }

    method CompleteJob(id: JobId, result: AnalysisId, onlyActive: bool) returns (changed: bool)
      modifies this
      ensures changed <==> id in old(rows) && (onlyActive ==> Active(old(rows)[id].status))
      ensures rows == Complete(old(rows), id, result, onlyActive)
      ensures changed ==> Becomes(old(rows), rows, id, Done, Some(result))
      ensures !changed ==> rows == old(rows)
    {
      changed := id in rows && (!onlyActive || Active(rows[id].status));
      if changed { rows := rows[id := rows[id].(status := Done, result := Some(result))]; }
    }

    /** Unconditional: whatever the status was, it is overwritten. */
    method UpdateJobStatus(id: JobId, status: Status, result: Option<AnalysisId>)
      modifies this
      ensures rows == if id in old(rows)
                      then Write(old(rows), id, status, if Active(status) then old(rows)[id].result else result)
                      else old(rows)
      ensures id in old(rows) ==>
                Becomes(old(rows), rows, id, status, if Active(status) then old(rows)[id].result else result)
    {
      if id in rows {
        rows := rows[id := rows[id].(status := status, result := if Active(status) then rows[id].result else result)];
      }
    }

    method FailIfActive(id: JobId)
      modifies this
      ensures rows == FailActive(old(rows), id)
      ensures IsActive(old(rows), id) ==> Becomes(old(rows), rows, id, Failed, old(rows)[id].result)
      ensures !IsActive(old(rows), id) ==> rows == old(rows)
    {
      if id in rows && rows[id].status in {Queued, Running} {
        rows := rows[id := rows[id].(status := Failed)];
      }
    }

    /** The cancel endpoint's transaction; None when no such job, Some(false) when it has finished. */
    method CancelByAgent(id: JobId) returns (accepted: Option<bool>)
      modifies this
      ensures accepted == if id !in old(rows) then None else Some(old(rows)[id].status in {Queued, Running, Cancelled})
      ensures rows == CancelActive(old(rows), id)
      ensures accepted == Some(true) ==> Becomes(old(rows), rows, id, Cancelled, old(rows)[id].result)
      ensures accepted != Some(true) ==> rows == old(rows)
    {
      if id !in rows { return None; }
      if rows[id].status !in {Queued, Running, Cancelled} { return Some(false); }
      if rows[id].status in {Queued, Running} {
        rows := rows[id := rows[id].(status := Cancelled)];
      }
      accepted := Some(true);
    }
  }
}
