/** What a job's row, event log and retry count tell, in runs without redelivery. */
module JobHistory {
  import opened Domain
  import opened Pipeline
  import opened Decomposition
  import opened Sequential

  // ---------------------------------------------------------------- completed is final

  /** Once the row is completed, nothing is left to do but report and acknowledge. */
  predicate Settled(x: Job) {
    x.row.Some? && x.row.value.status.Completed? ==>
      x.stage.Ended? || (x.stage.Busy? && x.stage.k.Working? && (x.stage.k.pc.EmitCompleted? || x.stage.k.pc.AckDone?))
  }

  /** The row exists exactly from the insert on, and a job in the queue or with a worker has one. */
  predicate RowInPlace(x: Job) {
    && (x.stage.Absent? ==> x.row.None? && x.call.None?)
    && (x.stage.Calling? ==> x.call.Some? && x.call.value.Open() && (x.row.None? <==> x.call.value.pc.Inserting?)
                             && (x.row.Some? ==> x.row.value.status.Pending?))
    && (x.stage.Queued? || x.stage.Busy? ==> x.row.Some? && x.call.Some? && !x.call.value.Open())
    && (x.stage.Busy? ==> x.stage.k.Working?)
  }

  lemma RowInPlaceStep(cfg: Config, f: Faults, x: Job, l: Label, j: JobId)
    requires RowInPlace(x) && Legal(f, x, l, j)
    ensures RowInPlace(Advance(cfg, x, l, j))
  {
  }

  lemma SettledStep(cfg: Config, f: Faults, x: Job, l: Label, j: JobId)
    requires Settled(x) && RowInPlace(x) && Legal(f, x, l, j)
    ensures Settled(Advance(cfg, x, l, j))
    ensures x.row.Some? && x.row.value.status.Completed? ==> Advance(cfg, x, l, j).row == x.row
  {
  }

  lemma {:induction false} SettledAlways(cfg: Config, f: Faults, ls: seq<Label>, j: JobId)
    requires LegalPlay(cfg, f, ls, j)
    ensures Settled(Play(cfg, ls, j)) && RowInPlace(Play(cfg, ls, j))
  {
    if ls != [] {
      var x := Play(cfg, ls[..|ls| - 1], j);
      SettledAlways(cfg, f, ls[..|ls| - 1], j);
      SettledStep(cfg, f, x, ls[|ls| - 1], j);
      RowInPlaceStep(cfg, f, x, ls[|ls| - 1], j);
    }
  }

  /** In a run without redelivery a completed row never changes again, whatever else fails. */
  lemma {:induction false} CompletedIsFinal(cfg: Config, f: Faults, ls: seq<Label>, n: nat, j: JobId)
    requires Run(cfg, f, ls) && f.redelivery.Never? && n <= |ls|
    requires j in Exec(cfg, ls[..n]).rows && Exec(cfg, ls[..n]).rows[j].status.Completed?
    ensures j in Exec(cfg, ls).rows && Exec(cfg, ls).rows[j] == Exec(cfg, ls[..n]).rows[j]
  {
    if n == |ls| {
      assert ls[..n] == ls;
    } else {
      var before := ls[..|ls| - 1];
      assert before[..n] == ls[..n];
      CompletedIsFinal(cfg, f, before, n, j);
      RunsSequentially(cfg, f, before, j);
      RunsSequentially(cfg, f, ls, j);
      var x := Play(cfg, Own(cfg, before, j), j);
      var r, l, moved := LastStep(cfg, f, ls, j);
      SettledAlways(cfg, f, Own(cfg, before, j), j);
      assert x.row == RowOf(Exec(cfg, before), j);
      if moved {
        PlaySnoc(cfg, f, Own(cfg, before, j), l, j);
        assert Own(cfg, ls, j) == Own(cfg, before, j) + [l];
        SettledStep(cfg, f, x, l, j);
        assert Play(cfg, Own(cfg, ls, j), j).row == RowOf(Exec(cfg, ls), j);
      }
    }
  }

  // ---------------------------------------------------------------- the event log

  function Statuses(log: seq<JobEvent>): seq<Status> {
    seq(|log|, i requires 0 <= i < |log| => log[i].status)
  }

  /** `n` failed attempts. */
  function Rounds(n: nat): seq<Status> {
    if n == 0 then [] else Rounds(n - 1) + [Processing, Failed]
  }

  predicate RowIs(x: Job, status: Status) { x.row.Some? && x.row.value.status == status }

  predicate Fails(x: Job, error: RowError) { RowIs(x, Failed) && x.row.value.error == Some(error) }

  /** Row and log of a job that is waiting for its next attempt after `n` failed ones. */
  predicate Between(x: Job, n: nat) {
    Statuses(x.log) == Rounds(n) && (if n == 0 then RowIs(x, Pending) else RowIs(x, Failed))
  }

  /** What row and log show at each program point. */
  predicate Shown(x: Job, n: nat) {
    var log := Statuses(x.log);
    match x.stage
    case Absent => n == 0 && log == []
    case Calling => n == 0 && log == []
    case Queued(_, _, _) => Between(x, n)
    case Busy(_, k) =>
      k.Working? &&
      (match k.pc
       case SetProcessing => Between(x, n)
       case EmitProcessing => log == Rounds(n) && RowIs(x, Processing)
       case Generating => log == Rounds(n) + [Processing] && RowIs(x, Processing)
       case SetFailed(_) => log == Rounds(n) + [Processing] && RowIs(x, Processing)
       case EmitFailed(_) => log == Rounds(n) + [Processing] && RowIs(x, Failed)
       case SetCompleted(_) => log == Rounds(n) + [Processing] && RowIs(x, Processing)
       case EmitCompleted(_) => log == Rounds(n) + [Processing] && RowIs(x, Completed)
       case AckDone => log == Rounds(n) + [Processing, Completed] && RowIs(x, Completed)
       case _ => n > 0 && log == Rounds(n) && RowIs(x, Failed))
    case Ended(_) =>
      || (log == Rounds(n) && n > 0 && RowIs(x, Failed))
      || (log == Rounds(n) + [Processing, Completed] && RowIs(x, Completed))
      || (log == [] && n == 0 && (x.row.None? || RowIs(x, Pending) || Fails(x, NotQueued)))
  }

  predicate LogFaults(f: Faults) {
    !f.status && !f.event && !f.crash && f.redelivery.Never?
  }

  lemma StatusesSnoc(log: seq<JobEvent>, e: JobEvent)
    ensures Statuses(log + [e]) == Statuses(log) + [e.status]
  {
  }

  lemma ShownStep(cfg: Config, f: Faults, x: Job, l: Label, j: JobId)
    requires Shown(x, x.ledger.failed) && RowInPlace(x) && Legal(f, x, l, j) && LogFaults(f)
    ensures Shown(Advance(cfg, x, l, j), Advance(cfg, x, l, j).ledger.failed)
  {
    if l.Work? && Request(x.stage.k.msg, x.stage.k.pc).Emit? {
      ShownEmit(cfg, f, x, l, j);
    } else if l.Work? {
      ShownWork(cfg, f, x, l, j);
    } else {
      ShownMove(cfg, f, x, l, j);
    }
  }

  lemma ShownEmit(cfg: Config, f: Faults, x: Job, l: Label, j: JobId)
    requires Shown(x, x.ledger.failed) && Legal(f, x, l, j) && LogFaults(f) && l.Work? && Request(x.stage.k.msg, x.stage.k.pc).Emit?
    ensures Shown(Advance(cfg, x, l, j), Advance(cfg, x, l, j).ledger.failed)
  {
    var n := x.ledger.failed;
    StatusesSnoc(x.log, Request(x.stage.k.msg, x.stage.k.pc).event);
    assert Rounds(n) + [Processing] + [Failed] == Rounds(n) + [Processing, Failed];
    assert Rounds(n) + [Processing] + [Completed] == Rounds(n) + [Processing, Completed];
  }

  lemma ShownWork(cfg: Config, f: Faults, x: Job, l: Label, j: JobId)
    requires Shown(x, x.ledger.failed) && RowInPlace(x) && Legal(f, x, l, j) && LogFaults(f) && l.Work? && !Request(x.stage.k.msg, x.stage.k.pc).Emit?
    ensures Shown(Advance(cfg, x, l, j), Advance(cfg, x, l, j).ledger.failed)
  {
  }

  lemma ShownMove(cfg: Config, f: Faults, x: Job, l: Label, j: JobId)
    requires Shown(x, x.ledger.failed) && RowInPlace(x) && Legal(f, x, l, j) && LogFaults(f) && !l.Work?
    ensures Shown(Advance(cfg, x, l, j), Advance(cfg, x, l, j).ledger.failed)
  {
  }

  lemma {:induction false} ShownAlways(cfg: Config, f: Faults, ls: seq<Label>, j: JobId)
    requires LegalPlay(cfg, f, ls, j) && LogFaults(f)
    ensures Shown(Play(cfg, ls, j), Play(cfg, ls, j).ledger.failed) && RowInPlace(Play(cfg, ls, j))
  {
    if ls != [] {
      var x := Play(cfg, ls[..|ls| - 1], j);
      ShownAlways(cfg, f, ls[..|ls| - 1], j);
      ShownStep(cfg, f, x, ls[|ls| - 1], j);
      RowInPlaceStep(cfg, f, x, ls[|ls| - 1], j);
    }
  }

  /** A worker between the first write and the last event of `Process`. */
  predicate InsideProcess(s: State, j: JobId) {
    exists w :: w in s.workers && WorksOn(s.workers[w], j)
                && (s.workers[w].pc.MidProcess() || s.workers[w].pc.EmitFailed? || s.workers[w].pc.EmitCompleted?)
  }

  lemma RoundsEndFailed(n: nat)
    ensures |Rounds(n)| == 2 * n
    ensures n > 0 ==> Rounds(n)[|Rounds(n)| - 1] == Failed
  {
  }

  /**
    With the database and the event exchange working and nobody crashing, the events of a job are `processing failed`
    once for every failed attempt, then possibly `processing completed`; and outside `Process` the row shows the
    status of the last event, or no event was sent and the job is pending or was never queued.
  */
  lemma EventLogMatchesRow(cfg: Config, f: Faults, s: State, j: JobId)
    requires Reachable(cfg, f, s) && LogFaults(f) && !InsideProcess(s, j)
    ensures var log, n := Statuses(EventsOf(s.events, j)), LedgerOf(s, j).failed;
            && (log == Rounds(n) || log == Rounds(n) + [Processing, Completed])
            && (j in s.rows ==>
                  if log != [] then s.rows[j].status == log[|log| - 1]
                  else s.rows[j].status.Pending? || (s.rows[j].status.Failed? && s.rows[j].error == Some(NotQueued)))
  {
    var ls :| Run(cfg, f, ls) && Exec(cfg, ls) == s;
    RunsSequentially(cfg, f, ls, j);
    ShownAlways(cfg, f, Own(cfg, ls, j), j);
    ShownOutside(cfg, s, j, Play(cfg, Own(cfg, ls, j), j));
  }

  lemma ShownOutside(cfg: Config, s: State, j: JobId, x: Job)
    requires Tracks(Restrict(cfg, s, j), j, x) && RowInPlace(x) && Shown(x, x.ledger.failed) && !InsideProcess(s, j)
    ensures var log, n := Statuses(EventsOf(s.events, j)), LedgerOf(s, j).failed;
            && (log == Rounds(n) || log == Rounds(n) + [Processing, Completed])
            && (j in s.rows ==>
                  if log != [] then s.rows[j].status == log[|log| - 1]
                  else s.rows[j].status.Pending? || (s.rows[j].status.Failed? && s.rows[j].error == Some(NotQueued)))
  {
    assert x.row == RowOf(s, j) && x.ledger == LedgerOf(s, j) && x.log == EventsOf(s.events, j);
    RoundsEndFailed(LedgerOf(s, j).failed);
    if x.stage.Busy? {
      var r := Restrict(cfg, s, j);
      assert x.stage.w in r.workers && r.workers[x.stage.w] == x.stage.k;
      assert x.stage.w in s.workers && s.workers[x.stage.w] == x.stage.k;
    }
  }

  // ---------------------------------------------------------------- retry bookkeeping

  predicate CountIs(x: Job, n: int) {
    x.row.Some? && x.row.value.retryCount + x.ledger.missed == n
  }

  /** How the retry count of the row, the failed attempts and the failed increments fit together. */
  predicate Counted(x: Job) {
    var failed := x.ledger.failed;
    match x.stage
    case Absent => failed == 0 && x.ledger.missed == 0
    case Calling => failed == 0 && x.ledger.missed == 0 && (x.row.Some? ==> x.row.value.retryCount == 0)
    case Queued(_, m, _) => failed == m.retryCount && CountIs(x, failed)
    case Busy(_, k) =>
      k.Working? &&
      (match k.pc
       case AckFailed(_) => failed == k.msg.retryCount + 1 && CountIs(x, failed - 1)
       case Incrementing(_) => failed == k.msg.retryCount + 1 && CountIs(x, failed - 1)
       case MarkExhausted(_) => failed == k.msg.retryCount + 1 && CountIs(x, failed)
       case DlqPublish => failed == k.msg.retryCount + 1 && CountIs(x, failed)
       case _ => failed == k.msg.retryCount && CountIs(x, failed))
    case Ended(_) => x.row.Some? ==> x.row.value.retryCount + x.ledger.missed <= failed
  }

  lemma CountedStep(cfg: Config, f: Faults, x: Job, l: Label, j: JobId)
    requires Counted(x) && RowInPlace(x) && Legal(f, x, l, j)
    ensures Counted(Advance(cfg, x, l, j))
  {
    if l.Work? {
      if x.stage.k.Working? && x.stage.k.pc.BeforeAck() {
        CountedAttempt(cfg, f, x, l, j);
      } else {
        CountedRetry(cfg, f, x, l, j);
      }
    } else {
      CountedMove(cfg, f, x, l, j);
    }
  }

  lemma CountedAttempt(cfg: Config, f: Faults, x: Job, l: Label, j: JobId)
    requires Counted(x) && RowInPlace(x) && Legal(f, x, l, j) && l.Work? && x.stage.k.Working? && x.stage.k.pc.BeforeAck()
    ensures Counted(Advance(cfg, x, l, j))
  {
  }

  lemma CountedRetry(cfg: Config, f: Faults, x: Job, l: Label, j: JobId)
    requires Counted(x) && RowInPlace(x) && Legal(f, x, l, j) && l.Work? && !(x.stage.k.Working? && x.stage.k.pc.BeforeAck())
    ensures Counted(Advance(cfg, x, l, j))
  {
  }

  lemma CountedMove(cfg: Config, f: Faults, x: Job, l: Label, j: JobId)
    requires Counted(x) && RowInPlace(x) && Legal(f, x, l, j) && !l.Work?
    ensures Counted(Advance(cfg, x, l, j))
  {
  }

  lemma {:induction false} CountedAlways(cfg: Config, f: Faults, ls: seq<Label>, j: JobId)
    requires LegalPlay(cfg, f, ls, j)
    ensures Counted(Play(cfg, ls, j)) && RowInPlace(Play(cfg, ls, j))
  {
    if ls != [] {
      var x := Play(cfg, ls[..|ls| - 1], j);
      CountedAlways(cfg, f, ls[..|ls| - 1], j);
      CountedStep(cfg, f, x, ls[|ls| - 1], j);
      RowInPlaceStep(cfg, f, x, ls[|ls| - 1], j);
    }
  }

  /**
    Without redelivery, whatever else fails, `retry_count` never exceeds the failed attempts; while a message of the
    job is queued it carries exactly the number of failed attempts, and the row lags behind it by exactly the number
    of increments that the database refused.
  */
  lemma RetryCountLags(cfg: Config, f: Faults, s: State, j: JobId)
    requires Reachable(cfg, f, s) && f.redelivery.Never? && j in s.rows
    ensures s.rows[j].retryCount <= LedgerOf(s, j).failed
    ensures forall id | id in s.copies && About(s.copies[id].body, j) && s.copies[id].Queued() ::
              && s.copies[id].body.msg.retryCount == LedgerOf(s, j).failed
              && s.rows[j].retryCount + LedgerOf(s, j).missed == s.copies[id].body.msg.retryCount
  {
    var ls :| Run(cfg, f, ls) && Exec(cfg, ls) == s;
    RunsSequentially(cfg, f, ls, j);
    CountedAlways(cfg, f, Own(cfg, ls, j), j);
    LagOf(cfg, s, j, Play(cfg, Own(cfg, ls, j), j));
  }

  lemma LagOf(cfg: Config, s: State, j: JobId, x: Job)
    requires Tracks(Restrict(cfg, s, j), j, x) && Counted(x) && RowInPlace(x) && j in s.rows
    ensures s.rows[j].retryCount <= LedgerOf(s, j).failed
    ensures forall id | id in s.copies && About(s.copies[id].body, j) && s.copies[id].Queued() ::
              && s.copies[id].body.msg.retryCount == LedgerOf(s, j).failed
              && s.rows[j].retryCount + LedgerOf(s, j).missed == s.copies[id].body.msg.retryCount
  {
    var r := Restrict(cfg, s, j);
    assert x.row == Some(s.rows[j]) && x.ledger == LedgerOf(s, j);
    forall id | id in s.copies && About(s.copies[id].body, j) && s.copies[id].Queued()
      ensures s.copies[id].body.msg.retryCount == LedgerOf(s, j).failed
      ensures s.rows[j].retryCount + LedgerOf(s, j).missed == s.copies[id].body.msg.retryCount
    {
      assert id in r.copies && r.copies[id] == s.copies[id];
      assert x.stage.Queued? && x.stage.id == id;
    }
  }
}
