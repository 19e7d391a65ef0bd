/** What the events of a job tell about its attempts, one by one, when nothing but attempts of the generator fails. */
module AttemptLog {
  import opened Domain
  import opened Pipeline
  import opened Decomposition
  import opened Sequential
  import opened JobHistory
  import opened Refinement
  import opened Reports

  /** The event carries what attempt `n` of the generator answered. */
  predicate TellsAttempt(cfg: Config, disk: DiskOracle, j: JobId, p: Payload, e: JobEvent, n: int) {
    match e.status
    case Pending => false
    case Processing => e.filePath.None? && e.error.None?
    case Completed => e.filePath.Some? && e.error.None? && Attempt(cfg, disk, j, p, n) == Success(e.filePath.value)
    case Failed =>
      && e.filePath.None? && e.error.Some? && e.error.value.GenerationFailed?
      && Attempt(cfg, disk, j, p, n) == Failure(e.error.value.error)
  }

  /** Each event so far is that of its attempt: `processing` first, then what came out. */
  predicate LogTells(cfg: Config, disk: DiskOracle, j: JobId, p: Payload, log: seq<JobEvent>) {
    forall i | 0 <= i < |log| ::
      (log[i].status.Processing? <==> i % 2 == 0) && TellsAttempt(cfg, disk, j, p, log[i], i / 2)
  }

  predicate JobTells(cfg: Config, disk: DiskOracle, j: JobId, x: Job) {
    x.log != [] ==> x.call.Some? && LogTells(cfg, disk, j, x.call.value.payload, x.log)
  }

  lemma JobTellsStep(cfg: Config, disk: DiskOracle, j: JobId, x: Job, l: Label)
    requires JobTells(cfg, disk, j, x) && OnTrack(cfg, disk, j, x) && RowInPlace(x) && Legal(NoFaults(disk), x, l, j)
    requires Shown(x, x.ledger.failed)
    ensures JobTells(cfg, disk, j, Advance(cfg, x, l, j))
  {
    if l.Work? && Request(x.stage.k.msg, x.stage.k.pc).Emit? {
      EmitTells(cfg, disk, j, x, l);
    } else {
      QuietLog(cfg, disk, j, x, l);
      if x.log != [] { SameRequest(cfg, disk, j, x, l); }
    }
  }

  lemma SameRequest(cfg: Config, disk: DiskOracle, j: JobId, x: Job, l: Label)
    requires OnTrack(cfg, disk, j, x) && RowInPlace(x) && Shown(x, x.ledger.failed) && Legal(NoFaults(disk), x, l, j) && x.log != []
    ensures x.call.Some? && Advance(cfg, x, l, j).call.Some?
    ensures Advance(cfg, x, l, j).call.value.payload == x.call.value.payload
  {
    assert |Statuses(x.log)| == |x.log|;
  }

  lemma QuietLog(cfg: Config, disk: DiskOracle, j: JobId, x: Job, l: Label)
    requires Legal(NoFaults(disk), x, l, j) && !(l.Work? && Request(x.stage.k.msg, x.stage.k.pc).Emit?)
    ensures Advance(cfg, x, l, j).log == x.log
  {
  }

  lemma EmitTells(cfg: Config, disk: DiskOracle, j: JobId, x: Job, l: Label)
    requires JobTells(cfg, disk, j, x) && OnTrack(cfg, disk, j, x) && Shown(x, x.ledger.failed)
    requires Legal(NoFaults(disk), x, l, j) && l.Work? && Request(x.stage.k.msg, x.stage.k.pc).Emit?
    ensures JobTells(cfg, disk, j, Advance(cfg, x, l, j))
  {
    var k, n, e := x.stage.k, x.ledger.failed, Request(x.stage.k.msg, x.stage.k.pc).event;
    EmitIsNext(cfg, disk, j, x, k);
    AppendTells(cfg, disk, j, x.call.value.payload, x.log, e, n);
    assert Advance(cfg, x, l, j).log == x.log + [e] && Advance(cfg, x, l, j).call == x.call;
  }

  /** The event to come is that of the present attempt. */
  lemma EmitIsNext(cfg: Config, disk: DiskOracle, j: JobId, x: Job, k: Worker)
    requires OnTrack(cfg, disk, j, x) && Shown(x, x.ledger.failed) && x.stage.Busy? && x.stage.k == k
    requires k.Working? && Request(k.msg, k.pc).Emit?
    ensures var e, n := Request(k.msg, k.pc).event, x.ledger.failed;
            && x.call.Some? && |x.log| == (if e.status.Processing? then 2 * n else 2 * n + 1)
            && TellsAttempt(cfg, disk, j, x.call.value.payload, e, n)
  {
    RoundsEndFailed(x.ledger.failed);
    assert |Statuses(x.log)| == |x.log|;
  }

  lemma AppendTells(cfg: Config, disk: DiskOracle, j: JobId, p: Payload, log: seq<JobEvent>, e: JobEvent, n: nat)
    requires log != [] ==> LogTells(cfg, disk, j, p, log)
    requires |log| == (if e.status.Processing? then 2 * n else 2 * n + 1) && TellsAttempt(cfg, disk, j, p, e, n)
    ensures LogTells(cfg, disk, j, p, log + [e])
  {
  }

  lemma {:induction false} JobTellsAlways(cfg: Config, disk: DiskOracle, ls: seq<Label>, j: JobId)
    requires LegalPlay(cfg, NoFaults(disk), ls, j)
    ensures JobTells(cfg, disk, j, Play(cfg, ls, j))
  {
    if ls != [] {
      var before := ls[..|ls| - 1];
      JobTellsAlways(cfg, disk, before, j);
      PlayedWithEvents(cfg, disk, before, j);
      OnTrackAlways(cfg, disk, before, j);
      ShownAlways(cfg, NoFaults(disk), before, j);
      JobTellsStep(cfg, disk, j, Play(cfg, before, j), ls[|ls| - 1]);
    }
  }

  lemma {:induction false} PlayedWithEvents(cfg: Config, disk: DiskOracle, ls: seq<Label>, j: JobId)
    requires LegalPlay(cfg, NoFaults(disk), ls, j)
    ensures LegalPlay(cfg, OnlyEvents(disk), ls, j)
  {
    if ls != [] { PlayedWithEvents(cfg, disk, ls[..|ls| - 1], j); }
  }

  /**
    When nothing fails but attempts of the generator: at any moment, whatever the interleaving, the events of a job come
    in pairs, one pair for each attempt in order; the first of a pair says `processing`, the second carries what that
    attempt answered, the path or the error, and all carry the job's user.
  */
  lemma EachEventTellsItsAttempt(cfg: Config, disk: DiskOracle, s: State, j: JobId)
    requires Reachable(cfg, NoFaults(disk), s) && EventsOf(s.events, j) != []
    ensures j in s.rows && j in s.calls
    ensures forall e | e in EventsOf(s.events, j) :: e in s.events && e.jobId == j && e.userId == s.rows[j].userId
    ensures LogTells(cfg, disk, j, s.calls[j].payload, EventsOf(s.events, j))
  {
    var ls :| Run(cfg, NoFaults(disk), ls) && Exec(cfg, ls) == s;
    EventsOfOwn(s.events, j);
    forall e | e in EventsOf(s.events, j) ensures j in s.rows && e.userId == s.rows[j].userId {
      EventsTellTheTruth(cfg, NoFaults(disk), s, e);
    }
    assert EventsOf(s.events, j)[0] in EventsOf(s.events, j);
    RunsSequentially(cfg, NoFaults(disk), ls, j);
    JobTellsAlways(cfg, disk, Own(cfg, ls, j), j);
    TrackedTells(cfg, disk, s, j, Play(cfg, Own(cfg, ls, j), j));
  }

  lemma TrackedTells(cfg: Config, disk: DiskOracle, s: State, j: JobId, x: Job)
    requires Tracks(Restrict(cfg, s, j), j, x) && JobTells(cfg, disk, j, x) && EventsOf(s.events, j) != []
    ensures j in s.calls && LogTells(cfg, disk, j, s.calls[j].payload, EventsOf(s.events, j))
  {
    assert x.log == EventsOf(s.events, j);
  }
}
