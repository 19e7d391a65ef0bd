/** Which write a row shows, and when it was made; in every run, whatever fails. */
module Dates {
  import opened Domain
  import opened Generator
  import opened Pipeline
  import opened Ownership
  import opened Columns
  import opened RetryLevels
  import opened Delays
  import opened Reports

  // ---------------------------------------------------------------- the last write

  /** The status that a step writes into the row of job `j`. */
  function Writes(s: State, l: Label, j: JobId): Option<Status>
    requires Enabled(s, l)
  {
    match l
    case Work(w, out, _) =>
      if !out.Ok? || !WorksOn(s.workers[w], j) || j !in s.rows then None
      else
        (match s.workers[w].pc
         case SetProcessing => Some(Processing)
         case SetCompleted(_) => Some(Completed)
         case SetFailed(_) => Some(Failed)
         case MarkDropped(_) => Some(Failed)
         case MarkExhausted(_) => Some(Failed)
         case _ => None)
    case Api(i, out, _) =>
      if i != j || !out.Ok? then None
      else if s.calls[j].pc.Inserting? && j !in s.rows then Some(Pending)
      else if s.calls[j].pc.Compensating? && j in s.rows then Some(Failed)
      else None
    case _ => None
  }

  datatype Write = Write(status: Status, time: nat)

  /** The last status written into the row of job `j` in a run, and when. */
  function LastWrite(cfg: Config, ls: seq<Label>, j: JobId): Option<Write> {
    if ls == [] then None
    else
      var s, l := Exec(cfg, ls[..|ls| - 1]), ls[|ls| - 1];
      if Enabled(s, l) && Writes(s, l, j).Some? then Some(Write(Writes(s, l, j).value, s.clock))
      else LastWrite(cfg, ls[..|ls| - 1], j)
  }

  /** The status and the completion time of a row are those of a write. */
  predicate Shows(row: Row, w: Write) {
    && row.status == w.status
    && (w.status == Completed || w.status == Failed ==> row.completedAt == Some(w.time))
    && (w.status == Pending || w.status == Processing ==> row.completedAt.None?)
  }

  /** A step that writes a status leaves it with the present time, or none; any other step leaves both alone. */
  lemma StepDates(cfg: Config, s: State, l: Label, j: JobId)
    requires Enabled(s, l) && (l.Api? && l.job in s.rows ==> !s.calls[l.job].pc.Inserting?)
    ensures var t, w := Apply(cfg, s, l), Writes(s, l, j);
            && (j in t.rows <==> j in s.rows || w.Some?)
            && (w.Some? ==> Shows(t.rows[j], Write(w.value, s.clock)))
            && (w.None? && j in s.rows ==> t.rows[j].status == s.rows[j].status && t.rows[j].completedAt == s.rows[j].completedAt)
  {
  }

  /**
    A row exists once a status was written, and shows the last one that was: a terminal one with the time of that
    write as completion time, and no completion time otherwise; a path exactly when it is `completed`, an error exactly
    when it is `failed`.
  */
  lemma {:induction false} RowShowsLastWrite(cfg: Config, ls: seq<Label>, j: JobId)
    requires Run(cfg, AnyFault, ls)
    ensures var s, w := Exec(cfg, ls), LastWrite(cfg, ls, j);
            && (j in s.rows <==> w.Some?)
            && (w.Some? ==>
                  && Shows(s.rows[j], w.value)
                  && s.rows[j].filePath == (if w.value.status.Completed? then Some(PathOf(cfg.outputDir, j)) else None)
                  && (s.rows[j].error.Some? <==> w.value.status.Failed?))
  {
    if ls != [] {
      var before := ls[..|ls| - 1];
      RowShowsLastWrite(cfg, before, j);
      OwnedAlways(cfg, before);
      var s, l := Exec(cfg, before), ls[|ls| - 1];
      assert l.Api? && l.job in s.rows ==> RowOwned(cfg, s, l.job);
      StepDates(cfg, s, l, j);
      ColumnsAlways(cfg, ls);
      assert j in Exec(cfg, ls).rows ==> RowOk(cfg, Exec(cfg, ls), j);
    }
  }

  // ---------------------------------------------------------------- no earlier than it can be

  /** A job counts as published from the successful publish of its call on, at the time of that. */
  lemma PublishDates(cfg: Config, s: State, l: Label, j: JobId)
    requires Enabled(s, l)
    ensures LedgerOf(Apply(cfg, s, l), j).published ==
            if l.Api? && l.job == j && s.calls[j].pc.Publishing? && l.out.Ok? then Some(s.clock) else LedgerOf(s, j).published
  {
  }

  /** The retry delays that a job must have waited before a row can have this error. */
  function Patience(cfg: Config, error: RowError): nat {
    match error
    case RetriesExhausted(_) => Waited(LastLevel(cfg))
    case RetryNotPublished(level) => Waited(level - 1)
    case _ => 0
  }

  predicate RowTimely(cfg: Config, s: State, j: JobId)
    requires j in s.rows
  {
    var row := s.rows[j];
    row.completedAt.Some? ==>
      && row.completedAt.value <= s.clock
      && (LedgerOf(s, j).published.Some? ==>
            row.completedAt.value >= LedgerOf(s, j).published.value + if row.error.Some? then Patience(cfg, row.error.value) else 0)
  }

  ghost predicate Timely(cfg: Config, s: State) {
    forall j | j in s.rows :: RowTimely(cfg, s, j)
  }

  /** What a worker writes. */
  lemma ActTimely(cfg: Config, s: State, w: WorkerId, out: Outcome, j: JobId)
    requires Delayed(s) && Levels(cfg, s) && True(cfg, AnyFault, s)
    requires w in s.workers && WorksOn(s.workers[w], j) && (j in s.rows ==> RowTimely(cfg, s, j))
    ensures var e := EffectOf(cfg, s, w, out);
            && e.ledger.published == LedgerOf(s, j).published
            && (e.row.Some? ==> RowTimely(cfg, s.(rows := s.rows[j := e.row.value]), j))
  {
    assert WorkerDelayed(s, s.workers[w]) && WorkerLevel(cfg, s.workers[w]) && WorkerTrue(cfg, AnyFault, s.workers[w]);
  }

  lemma WorkTimely(cfg: Config, s: State, w: WorkerId, out: Outcome, id: CopyId)
    requires Delayed(s) && Levels(cfg, s) && True(cfg, AnyFault, s) && Timely(cfg, s)
    requires Enabled(s, Work(w, out, id)) && s.workers[w].Working?
    ensures Timely(cfg, Apply(cfg, s, Work(w, out, id)))
  {
    var t, own := Apply(cfg, s, Work(w, out, id)), s.workers[w].msg.jobId;
    ActTimely(cfg, s, w, out, own);
    forall j | j in t.rows ensures RowTimely(cfg, t, j) {
      if j != own { assert RowTimely(cfg, s, j); }
    }
  }

  /** What the API leaves: it publishes a job whose row has no completion time, and marks one that it has not published. */
  lemma ApiTimely(cfg: Config, s: State, l: Label)
    requires Delayed(s) && CallsTrue(cfg, AnyFault, s) && Timely(cfg, s)
    requires Enabled(s, l) && (l.Submit? || l.Api? || l.ApiDie?)
    ensures Timely(cfg, Apply(cfg, s, l))
  {
    var t := Apply(cfg, s, l);
    assert l.job in s.rows ==> CallTrue(cfg, AnyFault, s, l.job) && RowTimely(cfg, s, l.job);
    assert LedgerOf(s, l.job).published.Some? ==> l.job in s.calls && s.calls[l.job].pc.Accepted?;
    forall j | j in t.rows ensures RowTimely(cfg, t, j) {
      if j != l.job { assert RowTimely(cfg, s, j); }
    }
  }

  lemma MoveTimely(cfg: Config, s: State, l: Label)
    requires Timely(cfg, s) && Enabled(s, l)
    requires !l.Submit? && !l.Api? && !l.ApiDie? && (l.Work? ==> s.workers[l.w].Rejecting?)
    ensures Timely(cfg, Apply(cfg, s, l))
  {
    var t := Apply(cfg, s, l);
    forall j | j in t.rows ensures RowTimely(cfg, t, j) {
      assert RowTimely(cfg, s, j);
    }
  }

  lemma {:induction false} TimelyAlways(cfg: Config, ls: seq<Label>)
    requires Run(cfg, AnyFault, ls)
    ensures Timely(cfg, Exec(cfg, ls))
  {
    if ls != [] {
      var before, l := ls[..|ls| - 1], ls[|ls| - 1];
      var s := Exec(cfg, before);
      TimelyAlways(cfg, before);
      DelayedAlways(cfg, before);
      RetryLevelsAlways(cfg, before);
      TrueAlways(cfg, AnyFault, before);
      if l.Work? && s.workers[l.w].Working? {
        WorkTimely(cfg, s, l.w, l.out, l.id);
      } else if l.Submit? || l.Api? || l.ApiDie? {
        ApiTimely(cfg, s, l);
      } else {
        MoveTimely(cfg, s, l);
      }
    }
  }

  /**
    A completion time lies between the publish of the job and now; a job given up after its retries has waited for
    all their delays, with three retries for sixteen seconds, and one given up at the fourth level too.
  */
  lemma CompletionTime(cfg: Config, s: State, j: JobId)
    requires Reachable(cfg, AnyFault, s) && j in s.rows && s.rows[j].completedAt.Some?
    ensures var done, start := s.rows[j].completedAt.value, LedgerOf(s, j).published;
            && done <= s.clock
            && (start.Some? ==>
                  && start.value <= done
                  && (s.rows[j].error.Some? ==>
                        match s.rows[j].error.value
                        case RetriesExhausted(_) => cfg.maxRetries <= 3 && done >= start.value + [0, 1000, 6000, 16000][LastLevel(cfg)]
                        case RetryNotPublished(level) => 1 <= level <= 4 && done >= start.value + [0, 1000, 6000, 16000][level - 1]
                        case _ => true))
  {
    var ls :| Run(cfg, AnyFault, ls) && Exec(cfg, ls) == s;
    TimelyAlways(cfg, ls);
    TrueAlways(cfg, AnyFault, ls);
    assert RowTimely(cfg, s, j) && RowTrue(cfg, AnyFault, j, s.rows[j]);
    WaitedIs(LastLevel(cfg));
    if s.rows[j].error.Some? && s.rows[j].error.value.RetryNotPublished? {
      WaitedIs(s.rows[j].error.value.level - 1);
    }
  }
}
