/** The `jobs` table: what each statement of the repository does to it. */
module JobTable {
  import opened Domain
  import opened Generator

  type Table = map<JobId, Row>

  /** The row that `INSERT` leaves, the other columns taking their defaults. */
  function NewRow(user: UserId, template: string, payload: Payload, maxRetries: int): Row {
    Row(user, template, payload, Pending, None, None, 0, maxRetries, None)
  }

  /** The row that `UPDATE jobs SET status = ...` leaves. */
  function WithStatus(row: Row, status: Status, path: Option<string>, error: Option<RowError>, now: nat): Row {
    row.(status := status, filePath := path, error := error,
         completedAt := if status == Completed || status == Failed then Some(now) else None)
  }

  /** The columns say the same thing as the status. */
  predicate Coherent(dir: string, job: JobId, row: Row) {
    match row.status
    case Completed => row.filePath == Some(PathOf(dir, job)) && row.error.None? && row.completedAt.Some?
    case Failed => row.filePath.None? && row.error.Some? && row.completedAt.Some?
    case _ => row.filePath.None? && row.error.None? && row.completedAt.None?
  }

  /** The repository over an in-memory table. `reachable` is false when the database call fails. */
  class JobRepository {
    var rows: Table

    constructor ()
      ensures rows == map[]
    {
      rows := map[];
    }

    method Create(id: JobId, user: UserId, template: string, payload: Payload, maxRetries: int, reachable: bool)
      returns (ok: bool)
      modifies this
      ensures ok == (reachable && id !in old(rows))
      ensures rows == if ok then old(rows)[id := NewRow(user, template, payload, maxRetries)] else old(rows)
      ensures ok ==>
        var r := rows[id];
        && r.userId == user && r.template == template && r.payload == payload && r.maxRetries == maxRetries
        && r.status == Pending && r.retryCount == 0 && r.filePath.None? && r.error.None? && r.completedAt.None?
    {
      ok := reachable && id !in rows;
      if ok {
        rows := rows[id := NewRow(user, template, payload, maxRetries)];
      }
    }

    method UpdateStatus(id: JobId, status: Status, path: Option<string>, error: Option<RowError>, now: nat, reachable: bool)
      returns (ok: bool)
      modifies this
      ensures ok == (reachable && id in old(rows))
      ensures rows == if ok then old(rows)[id := WithStatus(old(rows)[id], status, path, error, now)] else old(rows)
      ensures ok ==>
        var was, r := old(rows)[id], rows[id];
        && r.status == status && r.filePath == path && r.error == error
        && (status == Completed || status == Failed ==> r.completedAt == Some(now))
        && (status == Pending || status == Processing ==> r.completedAt.None?)
        && r.userId == was.userId && r.template == was.template && r.payload == was.payload
        && r.retryCount == was.retryCount && r.maxRetries == was.maxRetries
    {
      var completedAt := None;
      if status == Completed || status == Failed {
        completedAt := Some(now);
      }
      ok := false;
      if reachable && id in rows {
        rows := rows[id := rows[id].(status := status, filePath := path, error := error, completedAt := completedAt)];
        ok := true;
      }
    }

    method IncrementRetry(id: JobId, reachable: bool) returns (ok: bool)
      modifies this
      ensures ok == reachable
      ensures rows == if reachable && id in old(rows)
                      then old(rows)[id := old(rows)[id].(retryCount := old(rows)[id].retryCount + 1)]
                      else old(rows)
    {
      if reachable && id in rows {
        rows := rows[id := rows[id].(retryCount := rows[id].retryCount + 1)];
      }
      ok := reachable;
    }
  }
}
