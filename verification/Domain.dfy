/** The values that the API, the queue, the workers and the SSE broker exchange. */
module Domain {

  datatype Option<+T> = None | Some(value: T)

  datatype Result<+T, +E> = Success(value: T) | Failure(error: E)

  type JobId = string
  type UserId = string

  datatype Status = Pending | Processing | Completed | Failed
  {
    predicate Terminal() { Completed? || Failed? }
  }

  datatype Item = Item(caption: string, text: string)

  /** What `json.Unmarshal` makes of the payload of a job. */
  datatype Payload =
    | Unparseable
    | Document(title: string, content: string, items: seq<Item>)

  datatype GenError = BadPayload | TitleMissing | NothingToPrint | WriteFailed

  /** Why `Process` returned an error. */
  datatype Cause = StatusNotWritten(status: Status) | NotRendered(error: GenError)

  /** The texts that end up in `jobs.error_message`. */
  datatype RowError =
    | NotQueued
    | GenerationFailed(error: GenError)
    | RetryNotEncoded
    | RetryNotPublished(level: int)
    | RetriesExhausted(cause: Cause)

  /** A row of the `jobs` table. */
  datatype Row = Row(
    userId: UserId,
    template: string,
    payload: Payload,
    status: Status,
    filePath: Option<string>,
    error: Option<RowError>,
    retryCount: nat,
    maxRetries: int,
    completedAt: Option<nat>)

  datatype JobMessage = JobMessage(
    jobId: JobId,
    userId: UserId,
    template: string,
    payload: Payload,
    retryCount: int,
    maxRetries: int)

  datatype JobEvent = JobEvent(
    jobId: JobId,
    userId: UserId,
    status: Status,
    filePath: Option<string>,
    error: Option<RowError>)
}
