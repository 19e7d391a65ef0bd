/**
  What the whole machinery amounts to when nothing outside fails: a pure function of the file system's answers.
*/
module Refinement {
  import opened Domain
  import opened Generator
  import opened JobTable
  import opened Pipeline
  import opened Decomposition
  import opened RetryLevels
  import opened Sequential
  import opened JobHistory

  type DiskOracle = (JobId, int) -> bool

  /** Every outside call succeeds; file writes follow the oracle. */
  function NoFaults(disk: DiskOracle): Faults {
    Faults(false, false, false, false, false, false, false, false, false, Never, Oracle(disk))
  }

  /** The same, but for the publishing of events. */
  function OnlyEvents(disk: DiskOracle): Faults {
    NoFaults(disk).(event := true)
  }

  // ---------------------------------------------------------------- the specification

  /** The generator's answer at attempt `n`. */
  function Attempt(cfg: Config, disk: DiskOracle, j: JobId, p: Payload, n: int): Result<string, GenError> {
    Generate(cfg.outputDir, j, p, disk(j, n))
  }

  /** The first attempt from `n` on that succeeds within the retry levels. */
  function FirstSuccess(cfg: Config, disk: DiskOracle, j: JobId, p: Payload, n: nat): Option<nat>
    requires n <= LastLevel(cfg) + 1
    decreases LastLevel(cfg) + 1 - n
  {
    if n > LastLevel(cfg) then None
    else if Attempt(cfg, disk, j, p, n).Success? then Some(n)
    else FirstSuccess(cfg, disk, j, p, n + 1)
  }

  /** How a job ends: its row, what the dead-letter queue holds of it, and the statuses its user was told. */
  datatype Verdict = Verdict(
    status: Status,
    filePath: Option<string>,
    error: Option<RowError>,
    retryCount: nat,
    deadWithRetries: Option<int>,
    told: seq<Status>)

  function Spec(cfg: Config, disk: DiskOracle, j: JobId, p: Payload): Verdict {
    match FirstSuccess(cfg, disk, j, p, 0)
    case Some(k) => Verdict(Completed, Some(PathOf(cfg.outputDir, j)), None, k, None, Rounds(k) + [Processing, Completed])
    case None =>
      var last := LastLevel(cfg);
      if cfg.maxRetries <= 3 then
        var e := Attempt(cfg, disk, j, p, last);
        Verdict(Failed, None, Some(RetriesExhausted(NotRendered(if e.Failure? then e.error else WriteFailed))),
                last + 1, Some(last), Rounds(last + 1))
      else Verdict(Failed, None, Some(RetryNotPublished(4)), 4, None, Rounds(4))
  }

  lemma {:induction false} FirstSuccessFinds(cfg: Config, disk: DiskOracle, j: JobId, p: Payload, n: nat)
    requires n <= LastLevel(cfg) + 1
    ensures match FirstSuccess(cfg, disk, j, p, n)
            case Some(k) => n <= k <= LastLevel(cfg) && Printable(p) && disk(j, k) && forall i | n <= i < k :: !disk(j, i)
            case None => Printable(p) ==> forall i | n <= i <= LastLevel(cfg) :: !disk(j, i)
    decreases LastLevel(cfg) + 1 - n
  {
    if n <= LastLevel(cfg) {
      FirstSuccessFinds(cfg, disk, j, p, n + 1);
    }
  }

  /**
    A job ends completed exactly when its document is printable and the disk takes it at some attempt within the
    retry levels, and its retry count is the first such attempt; otherwise it ends failed after all of them, with
    one message in the dead-letter queue when the worker's limit is a level that has a queue. Its error is the one
    that the payload explains, or the refused fourth level. The user is told `processing` at each attempt, then
    `failed`, or `completed` at the last.
  */
  lemma SpecMeans(cfg: Config, disk: DiskOracle, j: JobId, p: Payload)
    ensures var v := Spec(cfg, disk, j, p);
            && (v.status.Completed? <==> Printable(p) && exists k | 0 <= k <= LastLevel(cfg) :: disk(j, k))
            && (v.status.Completed? ==>
                  && v.filePath == Some(PathOf(cfg.outputDir, j)) && v.deadWithRetries.None?
                  && v.retryCount <= LastLevel(cfg) && disk(j, v.retryCount) && forall i | 0 <= i < v.retryCount :: !disk(j, i))
            && (!v.status.Completed? ==>
                  && v.status.Failed? && v.filePath.None? && v.retryCount == LastLevel(cfg) + 1
                  && v.deadWithRetries == if cfg.maxRetries <= 3 then Some(LastLevel(cfg)) else None)
    ensures var v := Spec(cfg, disk, j, p);
            && (v.status.Completed? ==> v.error.None?)
            && (!v.status.Completed? && cfg.maxRetries > 3 ==> v.error == Some(RetryNotPublished(4)))
            && (!v.status.Completed? && cfg.maxRetries <= 3 ==>
                  && v.error.Some? && v.error.value.RetriesExhausted? && v.error.value.cause.NotRendered?
                  && match v.error.value.cause.error
                     case BadPayload => p.Unparseable?
                     case TitleMissing => p.Document? && p.title == ""
                     case NothingToPrint => p.Document? && p.title != "" && p.content == "" && p.items == []
                     case WriteFailed => Printable(p))
    ensures var v := Spec(cfg, disk, j, p);
            && |v.told| == 2 * v.retryCount + (if v.status.Completed? then 2 else 0)
            && forall i | 0 <= i < |v.told| ::
                 v.told[i] == if i % 2 == 0 then Processing else if i == 2 * v.retryCount + 1 then Completed else Failed
  {
    FirstSuccessFinds(cfg, disk, j, p, 0);
    var v := Spec(cfg, disk, j, p);
    RoundsAlternate(v.retryCount);
    if !v.status.Completed? {
      GenerateMeans(cfg.outputDir, j, p, disk(j, LastLevel(cfg)));
    }
  }

  lemma {:induction false} RoundsAlternate(n: nat)
    ensures |Rounds(n)| == 2 * n && forall i | 0 <= i < 2 * n :: Rounds(n)[i] == if i % 2 == 0 then Processing else Failed
  {
    if n > 0 { RoundsAlternate(n - 1); }
  }

  predicate AllFail(cfg: Config, disk: DiskOracle, j: JobId, p: Payload, n: int) {
    forall i | 0 <= i < n :: Attempt(cfg, disk, j, p, i).Failure?
  }

  lemma {:induction false} FirstSuccessIs(cfg: Config, disk: DiskOracle, j: JobId, p: Payload, n: nat, k: nat)
    requires n <= k <= LastLevel(cfg) + 1 && AllFail(cfg, disk, j, p, k)
    requires k <= LastLevel(cfg) ==> Attempt(cfg, disk, j, p, k).Success?
    ensures FirstSuccess(cfg, disk, j, p, n) == if k <= LastLevel(cfg) then Some(k) else None
    decreases k - n
  {
    if n < k {
      assert Attempt(cfg, disk, j, p, n).Failure?;
      FirstSuccessIs(cfg, disk, j, p, n + 1, k);
    }
  }

  // ---------------------------------------------------------------- the sequential program meets it

  predicate RowShows(cfg: Config, x: Job, status: Status, path: Option<string>, error: Option<RowError>, count: int) {
    x.row.Some? && x.call.Some? && count >= 0 &&
    var c := x.call.value;
    x.row.value == NewRow(c.user, c.template, c.payload, cfg.apiMaxRetries).(
      status := status, filePath := path, error := error, retryCount := count, completedAt := x.row.value.completedAt)
  }

  function ErrorAt(cfg: Config, disk: DiskOracle, j: JobId, p: Payload, n: int): GenError {
    var r := Attempt(cfg, disk, j, p, n);
    if r.Failure? then r.error else WriteFailed
  }

  /** The row after `n` failed attempts, with `n` in it. */
  predicate After(cfg: Config, disk: DiskOracle, j: JobId, x: Job, n: int) {
    && x.call.Some? && n >= 0
    && AllFail(cfg, disk, j, x.call.value.payload, n)
    && x.ledger.failed == n
    && (if n == 0 then RowShows(cfg, x, Pending, None, None, 0)
        else RowShows(cfg, x, Failed, None, Some(GenerationFailed(ErrorAt(cfg, disk, j, x.call.value.payload, n - 1))), n))
  }

  predicate During(cfg: Config, disk: DiskOracle, j: JobId, x: Job, n: int, status: Status, path: Option<string>, error: Option<RowError>) {
    && x.call.Some? && n >= 0
    && AllFail(cfg, disk, j, x.call.value.payload, n)
    && x.ledger.failed == n
    && RowShows(cfg, x, status, path, error, n)
  }

  predicate IsMessage(cfg: Config, j: JobId, x: Job, m: JobMessage) {
    x.call.Some? && m == FirstMessage(cfg, j, x.call.value).(retryCount := m.retryCount)
  }

  predicate Meets(cfg: Config, disk: DiskOracle, j: JobId, x: Job, dead: Option<JobMessage>) {
    x.call.Some? &&
    var v := Spec(cfg, disk, j, x.call.value.payload);
    && RowShows(cfg, x, v.status, v.filePath, v.error, v.retryCount)
    && x.ledger.failed == v.retryCount
    && (if v.deadWithRetries.None? then dead.None? else dead.Some? && IsMessage(cfg, j, x, dead.value) && dead.value.retryCount == v.deadWithRetries.value)
  }

  predicate AtPc(cfg: Config, disk: DiskOracle, j: JobId, x: Job, k: Worker)
    requires k.Working?
  {
    x.call.Some? && IsMessage(cfg, j, x, k.msg) &&
    var n, p, last := k.msg.retryCount, x.call.value.payload, LastLevel(cfg);
    var result := Attempt(cfg, disk, j, p, n);
    match k.pc
    case SetProcessing => n <= last && After(cfg, disk, j, x, n)
    case EmitProcessing => n <= last && During(cfg, disk, j, x, n, Processing, None, None)
    case Generating => n <= last && During(cfg, disk, j, x, n, Processing, None, None)
    case SetFailed(e) => n <= last && result == Failure(e) && During(cfg, disk, j, x, n, Processing, None, None)
    case EmitFailed(e) => n <= last && result == Failure(e) && During(cfg, disk, j, x, n, Failed, None, Some(GenerationFailed(e)))
    case SetCompleted(path) => n <= last && result == Success(path) && During(cfg, disk, j, x, n, Processing, None, None)
    case EmitCompleted(path) => n <= last && result == Success(path) && During(cfg, disk, j, x, n, Completed, Some(path), None)
    case AckDone => n <= last && result.Success? && During(cfg, disk, j, x, n, Completed, Some(result.value), None)
    case AckFailed(c) => Failing(cfg, disk, j, x, n, c)
    case Incrementing(c) => Failing(cfg, disk, j, x, n, c)
    case RetryPublish => 1 <= n <= last + 1 && n <= cfg.maxRetries && After(cfg, disk, j, x, n)
    case MarkDropped(e) => n == 4 && cfg.maxRetries > 3 && e == RetryNotPublished(4) && After(cfg, disk, j, x, 4)
    case MarkExhausted(c) =>
      n == last && cfg.maxRetries <= 3 && result.Failure? && c == NotRendered(result.error) && After(cfg, disk, j, x, n + 1)
    case DlqPublish =>
      n == last && cfg.maxRetries <= 3 && result.Failure?
      && During(cfg, disk, j, x, n + 1, Failed, None, Some(RetriesExhausted(NotRendered(result.error))))
  }

  /** Attempt `n` has failed and is not yet counted in the row. */
  predicate Failing(cfg: Config, disk: DiskOracle, j: JobId, x: Job, n: int, c: Cause) {
    && x.call.Some? && 0 <= n <= LastLevel(cfg)
    && var p := x.call.value.payload;
    && AllFail(cfg, disk, j, p, n + 1)
    && c == NotRendered(ErrorAt(cfg, disk, j, p, n))
    && x.ledger.failed == n + 1
    && RowShows(cfg, x, Failed, None, Some(GenerationFailed(ErrorAt(cfg, disk, j, p, n))), n)
  }

  predicate OnTrack(cfg: Config, disk: DiskOracle, j: JobId, x: Job) {
    match x.stage
    case Absent => x.ledger.failed == 0
    case Calling => x.ledger.failed == 0 && x.call.Some? && (x.call.value.pc.Publishing? ==> RowShows(cfg, x, Pending, None, None, 0)) && !x.call.value.pc.Compensating?
    case Queued(_, m, _) => IsMessage(cfg, j, x, m) && m.retryCount <= LastLevel(cfg) && After(cfg, disk, j, x, m.retryCount)
    case Busy(_, k) => k.Working? && AtPc(cfg, disk, j, x, k)
    case Ended(d) => Meets(cfg, disk, j, x, d)
  }

  /** From the delivery to the end of `Process`. */
  lemma TrackProcess(cfg: Config, disk: DiskOracle, j: JobId, x: Job, w: WorkerId, out: Outcome, id: CopyId)
    requires OnTrack(cfg, disk, j, x) && RowInPlace(x) && Legal(OnlyEvents(disk), x, Work(w, out, id), j)
    requires var pc := x.stage.k.pc; pc.SetProcessing? || pc.EmitProcessing? || pc.Generating? || pc.SetFailed? || pc.SetCompleted? || pc.EmitCompleted?
    ensures OnTrack(cfg, disk, j, Advance(cfg, x, Work(w, out, id), j))
  {
  }

  lemma TrackEmitFailed(cfg: Config, disk: DiskOracle, j: JobId, x: Job, w: WorkerId, out: Outcome, id: CopyId)
    requires OnTrack(cfg, disk, j, x) && RowInPlace(x) && Legal(OnlyEvents(disk), x, Work(w, out, id), j)
    requires x.stage.k.pc.EmitFailed?
    ensures OnTrack(cfg, disk, j, Advance(cfg, x, Work(w, out, id), j))
  {
  }

  /** From the failed attempt to the retry queue or the end of the retries. */
  lemma TrackFailure(cfg: Config, disk: DiskOracle, j: JobId, x: Job, w: WorkerId, out: Outcome, id: CopyId)
    requires OnTrack(cfg, disk, j, x) && RowInPlace(x) && Legal(OnlyEvents(disk), x, Work(w, out, id), j)
    requires var pc := x.stage.k.pc; pc.AckFailed? || pc.Incrementing? || pc.RetryPublish?
    ensures OnTrack(cfg, disk, j, Advance(cfg, x, Work(w, out, id), j))
  {
    if x.stage.k.pc.Incrementing? {
      TrackIncrement(cfg, disk, j, x, w, out, id);
    }
  }

  lemma TrackIncrement(cfg: Config, disk: DiskOracle, j: JobId, x: Job, w: WorkerId, out: Outcome, id: CopyId)
    requires OnTrack(cfg, disk, j, x) && RowInPlace(x) && Legal(OnlyEvents(disk), x, Work(w, out, id), j)
    requires x.stage.k.pc.Incrementing?
    ensures OnTrack(cfg, disk, j, Advance(cfg, x, Work(w, out, id), j))
  {
  }

  lemma TrackExhausted(cfg: Config, disk: DiskOracle, j: JobId, x: Job, w: WorkerId, out: Outcome, id: CopyId)
    requires OnTrack(cfg, disk, j, x) && RowInPlace(x) && Legal(OnlyEvents(disk), x, Work(w, out, id), j)
    requires x.stage.k.pc.MarkExhausted?
    ensures OnTrack(cfg, disk, j, Advance(cfg, x, Work(w, out, id), j))
  {
  }

  lemma TrackEnd(cfg: Config, disk: DiskOracle, j: JobId, x: Job, w: WorkerId, out: Outcome, id: CopyId)
    requires OnTrack(cfg, disk, j, x) && RowInPlace(x) && Legal(OnlyEvents(disk), x, Work(w, out, id), j)
    requires var pc := x.stage.k.pc; pc.AckDone? || pc.MarkDropped? || pc.DlqPublish?
    ensures OnTrack(cfg, disk, j, Advance(cfg, x, Work(w, out, id), j))
  {
    var k := x.stage.k;
    var p, n := x.call.value.payload, k.msg.retryCount;
    if k.pc.AckDone? {
      FirstSuccessIs(cfg, disk, j, p, 0, n);
    } else {
      FirstSuccessIs(cfg, disk, j, p, 0, LastLevel(cfg) + 1);
    }
  }

  lemma OnTrackStep(cfg: Config, disk: DiskOracle, j: JobId, x: Job, l: Label)
    requires OnTrack(cfg, disk, j, x) && RowInPlace(x) && Legal(OnlyEvents(disk), x, l, j)
    ensures OnTrack(cfg, disk, j, Advance(cfg, x, l, j))
  {
    match l
    case Work(w, out, id) => TrackWorker(cfg, disk, j, x, w, out, id);
    case _ => TrackOther(cfg, disk, j, x, l);
  }

  lemma TrackWorker(cfg: Config, disk: DiskOracle, j: JobId, x: Job, w: WorkerId, out: Outcome, id: CopyId)
    requires OnTrack(cfg, disk, j, x) && RowInPlace(x) && Legal(OnlyEvents(disk), x, Work(w, out, id), j)
    ensures OnTrack(cfg, disk, j, Advance(cfg, x, Work(w, out, id), j))
  {
    var pc := x.stage.k.pc;
    if pc.SetProcessing? || pc.EmitProcessing? || pc.Generating? || pc.SetFailed? || pc.SetCompleted? || pc.EmitCompleted? {
      TrackProcess(cfg, disk, j, x, w, out, id);
    } else if pc.AckDone? || pc.MarkDropped? || pc.DlqPublish? {
      TrackEnd(cfg, disk, j, x, w, out, id);
    } else if pc.EmitFailed? {
      TrackEmitFailed(cfg, disk, j, x, w, out, id);
    } else if pc.MarkExhausted? {
      TrackExhausted(cfg, disk, j, x, w, out, id);
    } else {
      TrackFailure(cfg, disk, j, x, w, out, id);
    }
  }

  lemma TrackOther(cfg: Config, disk: DiskOracle, j: JobId, x: Job, l: Label)
    requires OnTrack(cfg, disk, j, x) && RowInPlace(x) && Legal(OnlyEvents(disk), x, l, j) && !l.Work?
    ensures OnTrack(cfg, disk, j, Advance(cfg, x, l, j))
  {
  }

  lemma {:induction false} OnTrackAlways(cfg: Config, disk: DiskOracle, ls: seq<Label>, j: JobId)
    requires LegalPlay(cfg, OnlyEvents(disk), ls, j)
    ensures OnTrack(cfg, disk, j, Play(cfg, ls, j)) && RowInPlace(Play(cfg, ls, j))
  {
    if ls != [] {
      var x := Play(cfg, ls[..|ls| - 1], j);
      OnTrackAlways(cfg, disk, ls[..|ls| - 1], j);
      OnTrackStep(cfg, disk, j, x, ls[|ls| - 1]);
      RowInPlaceStep(cfg, OnlyEvents(disk), x, ls[|ls| - 1], j);
    }
  }

  // ---------------------------------------------------------------- the history at rest

  /** Of the job's messages, so many were done with and so many dropped; nothing was lost, doubled or left uncounted. */
  predicate HistoryIs(led: Ledger, done: nat, dropped: nat) {
    led == NoHistory.(published := led.published, failed := led.failed, done := done, dropped := dropped)
  }

  predicate Tallied(x: Job) {
    match x.stage
    case Busy(_, k) => k.Working? && HistoryIs(x.ledger, 0, if k.pc.MarkDropped? then 1 else 0)
    case Ended(d) => x.row.Some? && HistoryIs(x.ledger, if x.row.value.status.Completed? then 1 else 0,
                                              if d.None? && !x.row.value.status.Completed? then 1 else 0)
    case _ => HistoryIs(x.ledger, 0, 0)
  }

  lemma TalliedStep(cfg: Config, disk: DiskOracle, j: JobId, x: Job, l: Label)
    requires Tallied(x) && OnTrack(cfg, disk, j, x) && RowInPlace(x) && Legal(OnlyEvents(disk), x, l, j)
    ensures Tallied(Advance(cfg, x, l, j))
  {
    if l.Work? {
      if Going(x.stage.k.pc) {
        TalliedGoing(cfg, disk, j, x, l);
      } else {
        TalliedLast(cfg, disk, j, x, l);
      }
    }
  }

  /** The worker goes on after this call. */
  predicate Going(pc: Pc) {
    !pc.AckDone? && !pc.RetryPublish? && !pc.MarkDropped? && !pc.DlqPublish?
  }

  lemma TalliedGoing(cfg: Config, disk: DiskOracle, j: JobId, x: Job, l: Label)
    requires Tallied(x) && OnTrack(cfg, disk, j, x) && Legal(OnlyEvents(disk), x, l, j) && l.Work? && Going(x.stage.k.pc)
    ensures Tallied(Advance(cfg, x, l, j))
  {
  }

  lemma TalliedLast(cfg: Config, disk: DiskOracle, j: JobId, x: Job, l: Label)
    requires Tallied(x) && OnTrack(cfg, disk, j, x) && RowInPlace(x) && Legal(OnlyEvents(disk), x, l, j) && l.Work? && !Going(x.stage.k.pc)
    ensures Tallied(Advance(cfg, x, l, j))
  {
  }

  lemma {:induction false} TalliedAlways(cfg: Config, disk: DiskOracle, ls: seq<Label>, j: JobId)
    requires LegalPlay(cfg, OnlyEvents(disk), ls, j)
    ensures Tallied(Play(cfg, ls, j))
  {
    if ls != [] {
      TalliedAlways(cfg, disk, ls[..|ls| - 1], j);
      OnTrackAlways(cfg, disk, ls[..|ls| - 1], j);
      TalliedStep(cfg, disk, j, Play(cfg, ls[..|ls| - 1], j), ls[|ls| - 1]);
    }
  }

  /** Nothing of job `j` is left to do. */
  predicate Quiescent(s: State, j: JobId) {
    && j in s.calls && !s.calls[j].Open()
    && (forall w | w in s.workers :: !WorksOn(s.workers[w], j))
    && (forall id | id in s.copies && About(s.copies[id].body, j) :: s.copies[id].place.Dlq?)
  }

  /** The copies of a job in the dead-letter queue: none, or exactly one, with the given retry count. */
  predicate DeadLetters(s: State, j: JobId, retries: Option<int>) {
    && (retries.None? ==> forall id | id in s.copies && About(s.copies[id].body, j) :: !s.copies[id].place.Dlq?)
    && (retries.Some? ==>
          && (exists id :: id in s.copies && About(s.copies[id].body, j) && s.copies[id].place.Dlq? && s.copies[id].body.msg.retryCount == retries.value)
          && (forall a, b | a in s.copies && b in s.copies && About(s.copies[a].body, j) && About(s.copies[b].body, j) :: a == b))
  }

  /**
    With any number of workers in any interleaving, and even when events are lost, once a job has come to rest its
    row and the dead-letter queue are those of the specification: completed at the first attempt that succeeds within
    the retry levels, and otherwise failed, with exactly one dead letter when at most three retries are configured and
    none when more are.
  */
  lemma QuiescentRowMeetsSpec(cfg: Config, disk: DiskOracle, s: State, j: JobId)
    requires Reachable(cfg, OnlyEvents(disk), s) && Quiescent(s, j)
    ensures j in s.rows
    ensures var row, v := s.rows[j], Spec(cfg, disk, j, s.calls[j].payload);
            && row.status == v.status && row.filePath == v.filePath && row.error == v.error && row.retryCount == v.retryCount
            && LedgerOf(s, j).failed == v.retryCount
            && HistoryIs(LedgerOf(s, j), if v.status.Completed? then 1 else 0, if v.status.Failed? && v.deadWithRetries.None? then 1 else 0)
            && DeadLetters(s, j, v.deadWithRetries)
  {
    var ls :| Run(cfg, OnlyEvents(disk), ls) && Exec(cfg, ls) == s;
    RunsSequentially(cfg, OnlyEvents(disk), ls, j);
    OnTrackAlways(cfg, disk, Own(cfg, ls, j), j);
    TalliedAlways(cfg, disk, Own(cfg, ls, j), j);
    RestMeets(cfg, disk, s, j, Play(cfg, Own(cfg, ls, j), j));
  }

  lemma RestMeets(cfg: Config, disk: DiskOracle, s: State, j: JobId, x: Job)
    requires Tracks(Restrict(cfg, s, j), j, x) && OnTrack(cfg, disk, j, x) && Tallied(x) && Quiescent(s, j)
    ensures j in s.rows
    ensures var row, v := s.rows[j], Spec(cfg, disk, j, s.calls[j].payload);
            && row.status == v.status && row.filePath == v.filePath && row.error == v.error && row.retryCount == v.retryCount
            && LedgerOf(s, j).failed == v.retryCount
            && HistoryIs(LedgerOf(s, j), if v.status.Completed? then 1 else 0, if v.status.Failed? && v.deadWithRetries.None? then 1 else 0)
            && DeadLetters(s, j, v.deadWithRetries)
  {
    QuiescentEnded(cfg, s, j, x);
    assert x.call == Some(s.calls[j]) && x.row == RowOf(s, j) && x.ledger == LedgerOf(s, j);
    RestInDlq(cfg, s, j, x, Spec(cfg, disk, j, s.calls[j].payload).deadWithRetries);
  }

  lemma {:induction false} AlsoWithEvents(cfg: Config, disk: DiskOracle, ls: seq<Label>)
    requires Run(cfg, NoFaults(disk), ls)
    ensures Run(cfg, OnlyEvents(disk), ls)
  {
    if ls != [] {
      AlsoWithEvents(cfg, disk, ls[..|ls| - 1]);
    }
  }

  /** When events are not lost either, the user has moreover been told what the specification says. */
  lemma QuiescentMeetsSpec(cfg: Config, disk: DiskOracle, s: State, j: JobId)
    requires Reachable(cfg, NoFaults(disk), s) && Quiescent(s, j)
    ensures j in s.rows
    ensures var row, v := s.rows[j], Spec(cfg, disk, j, s.calls[j].payload);
            && row.status == v.status && row.filePath == v.filePath && row.error == v.error && row.retryCount == v.retryCount
            && Statuses(EventsOf(s.events, j)) == v.told
            && DeadLetters(s, j, v.deadWithRetries)
  {
    var ls :| Run(cfg, NoFaults(disk), ls) && Exec(cfg, ls) == s;
    AlsoWithEvents(cfg, disk, ls);
    QuiescentRowMeetsSpec(cfg, disk, s, j);
    EventLogMatchesRow(cfg, NoFaults(disk), s, j);
    RoundsEndFailed(LedgerOf(s, j).failed);
  }

  lemma StageShows(r: State, j: JobId, x: Job)
    requires Tracks(r, j, x)
    ensures x.stage.Busy? ==> x.stage.w in r.workers
    ensures x.stage.Queued? ==> x.stage.id in r.copies && r.copies[x.stage.id].Queued()
  {
  }

  lemma QuiescentEnded(cfg: Config, s: State, j: JobId, x: Job)
    requires Tracks(Restrict(cfg, s, j), j, x) && Quiescent(s, j)
    ensures x.stage.Ended?
  {
    var r := Restrict(cfg, s, j);
    StageShows(r, j, x);
    assert forall id | id in r.copies :: r.copies[id] == s.copies[id];
  }

  lemma RestInDlq(cfg: Config, s: State, j: JobId, x: Job, retries: Option<int>)
    requires Tracks(Restrict(cfg, s, j), j, x) && Quiescent(s, j) && x.stage.Ended?
    requires if retries.None? then x.stage.dead.None? else x.stage.dead.Some? && x.stage.dead.value.retryCount == retries.value
    ensures DeadLetters(s, j, retries)
  {
    var r := Restrict(cfg, s, j);
    forall id | id in s.copies && About(s.copies[id].body, j)
      ensures id in r.copies && r.copies[id] == s.copies[id]
    {
    }
    if retries.Some? {
      var id :| id in r.copies && r.copies[id].place.Dlq?;
      assert s.copies[id].body.msg.retryCount == retries.value;
    }
  }
}
