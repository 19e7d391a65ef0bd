/** What the theorems about runs say of the objects that the code works on. */
module CodeGuarantees {
  import opened Domain
  import opened WorkerPool
  import opened Refinement
  import opened JobHistory
  import opened Decomposition
  import opened Stranding
  import opened Columns
  import opened Reports
  import AttemptLog

  /**
    However the code is used and interrupted, the rows in the table keep their columns in step with their status, and
    rows and events tell the truth.
  */
  lemma RowsStayCoherent(p: System)
    requires p.Valid()
    ensures ColumnsOk(p.cfg, p.Snapshot()) && True(p.cfg, p.faults, p.Snapshot())
  {
    TrueAlways(p.cfg, p.faults, p.trace);
    Conservation.FaultsWeaken(p.cfg, p.faults, p.trace);
    ColumnsAlways(p.cfg, p.trace);
  }

  /** While status writes succeed and deliveries return only after their holder stopped, the code strands no job. */
  lemma CodeStrandsNoJob(p: System, j: JobId)
    requires p.Valid() && !p.faults.status && !p.faults.redelivery.Anytime? && Unfinished(p.Snapshot(), j)
    ensures Unreported(p.Snapshot(), j) || HasLiveMessage(p.Snapshot(), j)
  {
    NoStrandedJob(p.cfg, p.faults, p.trace, j);
  }

  /** Without faults, a job that is done with has in its row, its events and the DLQ what the specification says. */
  lemma CodeMeetsSpec(p: System, disk: DiskOracle, j: JobId)
    requires p.Valid() && p.faults == NoFaults(disk) && Quiescent(p.Snapshot(), j)
    ensures j in p.repo.rows
    ensures var row, v := p.repo.rows[j], Spec(p.cfg, disk, j, p.calls[j].payload);
            && row.status == v.status && row.filePath == v.filePath && row.error == v.error && row.retryCount == v.retryCount
            && Statuses(EventsOf(p.events, j)) == v.told
            && DeadLetters(p.Snapshot(), j, v.deadWithRetries)
    ensures AttemptLog.LogTells(p.cfg, disk, j, p.calls[j].payload, EventsOf(p.events, j))
  {
    QuiescentMeetsSpec(p.cfg, disk, p.Snapshot(), j);
    if EventsOf(p.events, j) != [] {
      AttemptLog.EachEventTellsItsAttempt(p.cfg, disk, p.Snapshot(), j);
    }
  }
}
