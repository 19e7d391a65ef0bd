/** What events and error texts report is what happened; in every run, under every fault. */
module Reports {
  import opened Domain
  import opened Generator
  import opened JobTable
  import opened Pipeline
  import opened Ownership
  import opened Columns
  import opened RetryLevels
  import opened Delays
  import Conservation

  /** Some attempt of the job could find the disk as it is said to have been. */
  ghost predicate DiskSaid(cfg: Config, f: Faults, j: JobId, ok: bool) {
    f.disk.AnyWrite? || exists n :: 0 <= n <= LastLevel(cfg) && f.disk.writes(j, n) == ok
  }

  /** The error is the one that the payload explains; a refused write did take place. */
  ghost predicate ErrorTrue(cfg: Config, f: Faults, j: JobId, p: Payload, e: GenError) {
    Explains(p, e) && (e.WriteFailed? ==> DiskSaid(cfg, f, j, false))
  }

  /** The document was printed at some attempt. */
  ghost predicate Printed(cfg: Config, f: Faults, j: JobId, p: Payload) {
    Printable(p) && DiskSaid(cfg, f, j, true)
  }

  ghost predicate CauseTrue(cfg: Config, f: Faults, j: JobId, p: Payload, c: Cause) {
    match c
    case NotRendered(e) => ErrorTrue(cfg, f, j, p, e)
    case StatusNotWritten(status) => f.status && (status.Processing? || (status.Completed? && Printed(cfg, f, j, p)))
  }

  /** An event names the file when there is one, and the error when there was one. */
  ghost predicate EventTrue(cfg: Config, f: Faults, rows: Table, files: set<string>, e: JobEvent) {
    e.jobId in rows &&
    var p := rows[e.jobId].payload;
    match e.status
    case Pending => false
    case Processing => e.filePath.None? && e.error.None?
    case Completed =>
      && e.filePath == Some(PathOf(cfg.outputDir, e.jobId)) && e.filePath.value in files && e.error.None?
      && Printed(cfg, f, e.jobId, p)
    case Failed =>
      && e.filePath.None? && e.error.Some? && e.error.value.GenerationFailed?
      && ErrorTrue(cfg, f, e.jobId, p, e.error.value.error)
  }

  ghost predicate WorkerTrue(cfg: Config, f: Faults, k: Worker) {
    k.Working? ==>
      var j, p := k.msg.jobId, k.msg.payload;
      match k.pc
      case SetFailed(e) => ErrorTrue(cfg, f, j, p, e)
      case EmitFailed(e) => ErrorTrue(cfg, f, j, p, e)
      case SetCompleted(_) => Printed(cfg, f, j, p)
      case EmitCompleted(_) => Printed(cfg, f, j, p)
      case AckFailed(c) => CauseTrue(cfg, f, j, p, c)
      case Incrementing(c) => CauseTrue(cfg, f, j, p, c)
      case MarkExhausted(c) => CauseTrue(cfg, f, j, p, c)
      case MarkDropped(r) =>
        || (r.RetryNotEncoded? && f.encode)
        || (r.RetryNotPublished? && r.level == k.msg.retryCount && (f.publish || r.level == 4))
      case _ => true
  }

  /** What `error_message` says of a failed job. */
  ghost predicate RowErrorTrue(cfg: Config, f: Faults, j: JobId, row: Row) {
    row.error.Some? ==>
      match row.error.value
      case NotQueued => f.publish
      case GenerationFailed(e) => ErrorTrue(cfg, f, j, row.payload, e)
      case RetryNotEncoded => f.encode && cfg.maxRetries >= 1
      case RetryNotPublished(level) => 1 <= level <= 4 && level <= cfg.maxRetries && (f.publish || level == 4)
      case RetriesExhausted(c) => cfg.maxRetries <= 3 && CauseTrue(cfg, f, j, row.payload, c)
  }

  ghost predicate RowTrue(cfg: Config, f: Faults, j: JobId, row: Row) {
    RowErrorTrue(cfg, f, j, row) && (row.status.Completed? ==> Printed(cfg, f, j, row.payload))
  }

  ghost predicate True(cfg: Config, f: Faults, s: State) {
    && (forall e | e in s.events :: EventTrue(cfg, f, s.rows, s.files, e))
    && (forall w | w in s.workers :: WorkerTrue(cfg, f, s.workers[w]))
    && (forall j | j in s.rows :: RowTrue(cfg, f, j, s.rows[j]))
  }

  /** A job that was not queued has the row of the insert; it is marked when its call is refused, if that can be written. */
  predicate CallTrue(cfg: Config, f: Faults, s: State, j: JobId)
    requires j in s.rows
  {
    j in s.calls &&
    var c, row := s.calls[j], s.rows[j];
    var inserted := NewRow(c.user, c.template, c.payload, cfg.apiMaxRetries);
    && (row.error == Some(NotQueued) ==> c.pc.Refused?)
    && match c.pc
       case Inserting => false
       case Publishing => row == inserted
       case Abandoned => row == inserted
       case Compensating => f.publish && row == inserted
       case Refused =>
         && f.publish
         && ((f.status && row == inserted)
             || (row == inserted.(status := Failed, error := Some(NotQueued), completedAt := row.completedAt) && row.completedAt.Some?))
       case Accepted => true
  }

  predicate CallsTrue(cfg: Config, f: Faults, s: State) {
    forall j | j in s.rows :: CallTrue(cfg, f, s, j)
  }

  // ---------------------------------------------------------------- one call of a worker

  /** The attempt of the generator. */
  lemma RenderTrue(cfg: Config, f: Faults, s: State, w: WorkerId, out: Outcome)
    requires w in s.workers && s.workers[w].Working? && s.workers[w].pc.Generating?
    requires WorkerLevel(cfg, s.workers[w]) && MayFail(f, s.workers[w].msg, Render, out)
    ensures var e := EffectOf(cfg, s, w, out); e.next.Some? && WorkerTrue(cfg, f, e.next.value)
    ensures var e := EffectOf(cfg, s, w, out); e.row.None? && e.event.None?
  {
    var k := s.workers[w];
    GenerateMeans(cfg.outputDir, k.msg.jobId, k.msg.payload, out.Ok?);
    assert DiskSaid(cfg, f, k.msg.jobId, out.Ok?) by {
      if f.disk.Oracle? { assert f.disk.writes(k.msg.jobId, k.msg.retryCount) == out.Ok?; }
    }
  }

  lemma ActTrue(cfg: Config, f: Faults, s: State, w: WorkerId, out: Outcome)
    requires w in s.workers && s.workers[w].Working? && !s.workers[w].pc.Generating? && WorkerTrue(cfg, f, s.workers[w])
    requires WorkerLevel(cfg, s.workers[w]) && WorkerPath(cfg, s.files, s.workers[w]) && MessageOwned(s.rows, s.workers[w].msg)
    requires MayFail(f, s.workers[w].msg, Request(s.workers[w].msg, s.workers[w].pc), out)
    ensures var e, j := EffectOf(cfg, s, w, out), s.workers[w].msg.jobId;
            && (e.next.Some? ==> WorkerTrue(cfg, f, e.next.value))
            && (e.event.Some? ==> EventTrue(cfg, f, s.rows, s.files, e.event.value))
            && (e.row.Some? && RowTrue(cfg, f, j, s.rows[j]) ==> RowTrue(cfg, f, j, e.row.value))
            && (e.row.Some? ==> e.row.value.error == s.rows[j].error || e.row.value.error != Some(NotQueued))
  {
  }

  // ---------------------------------------------------------------- every step

  /** Later states say the same of an event. */
  lemma StillTrue(cfg: Config, f: Faults, s: State, t: State, e: JobEvent)
    requires EventTrue(cfg, f, s.rows, s.files, e) && Extends(s.rows, t.rows) && s.files <= t.files
    ensures EventTrue(cfg, f, t.rows, t.files, e)
  {
  }

  lemma PatchTrue(cfg: Config, f: Faults, s: State, w: WorkerId, e: Effect, id: CopyId)
    requires True(cfg, f, s) && w in s.workers && s.workers[w].Working? && s.workers[w].msg.jobId in s.rows
    requires e.next.Some? ==> WorkerTrue(cfg, f, e.next.value)
    requires e.event.Some? ==> EventTrue(cfg, f, s.rows, s.files, e.event.value)
    requires e.row.Some? ==> RowTrue(cfg, f, s.workers[w].msg.jobId, e.row.value) && Extends(s.rows, s.rows[s.workers[w].msg.jobId := e.row.value])
    ensures True(cfg, f, Patch(s, w, e, id))
  {
    var t := Patch(s, w, e, id);
    assert Extends(s.rows, t.rows) && s.files <= t.files;
    forall x | x in t.events ensures EventTrue(cfg, f, t.rows, t.files, x) {
      StillTrue(cfg, f, s, t, x);
    }
  }

  lemma PatchCalls(cfg: Config, f: Faults, s: State, w: WorkerId, e: Effect, id: CopyId)
    requires CallsTrue(cfg, f, s) && w in s.workers && s.workers[w].Working?
    requires var j := s.workers[w].msg.jobId;
             && j in s.rows && j in s.calls && s.calls[j].pc.Accepted?
             && (e.row.Some? ==> e.row.value.error == s.rows[j].error || e.row.value.error != Some(NotQueued))
    ensures CallsTrue(cfg, f, Patch(s, w, e, id))
  {
    var t := Patch(s, w, e, id);
    forall j | j in t.rows ensures CallTrue(cfg, f, t, j) {
      assert CallTrue(cfg, f, s, j);
    }
  }

  lemma WorkTrue(cfg: Config, f: Faults, s: State, w: WorkerId, out: Outcome, id: CopyId)
    requires True(cfg, f, s) && CallsTrue(cfg, f, s) && Owned(cfg, s) && ColumnsOk(cfg, s) && Levels(cfg, s) && Delayed(s)
    requires Enabled(s, Work(w, out, id)) && Allowed(f, s, Work(w, out, id)) && s.workers[w].Working?
    ensures var t := Apply(cfg, s, Work(w, out, id)); True(cfg, f, t) && CallsTrue(cfg, f, t)
  {
    var k, e := s.workers[w], EffectOf(cfg, s, w, out);
    assert MessageOwned(s.rows, k.msg) && WorkerDelayed(s, k) && WorkerLevel(cfg, k) && WorkerPath(cfg, s.files, k);
    ActOwned(cfg, s, w, out);
    if k.pc.Generating? {
      RenderTrue(cfg, f, s, w, out);
    } else {
      ActTrue(cfg, f, s, w, out);
      assert RowTrue(cfg, f, k.msg.jobId, s.rows[k.msg.jobId]);
    }
    PatchTrue(cfg, f, s, w, e, id);
    PatchCalls(cfg, f, s, w, e, id);
  }

  /** What a move of the API leaves of its own job. */
  lemma OwnCallTrue(cfg: Config, f: Faults, s: State, l: Label)
    requires CallsTrue(cfg, f, s) && Owned(cfg, s) && (l.Submit? || l.Api? || l.ApiDie?)
    requires l.job in s.rows ==> RowTrue(cfg, f, l.job, s.rows[l.job])
    requires Enabled(s, l) && Allowed(f, s, l)
    ensures var t, j := Apply(cfg, s, l), l.job; j in t.rows ==> CallTrue(cfg, f, t, j) && RowTrue(cfg, f, j, t.rows[j])
  {
    assert l.job in s.rows ==> RowOwned(cfg, s, l.job) && CallTrue(cfg, f, s, l.job);
  }

  /** What it leaves alone. */
  lemma OtherCalls(cfg: Config, s: State, l: Label)
    requires Owned(cfg, s) && Enabled(s, l) && (l.Submit? || l.Api? || l.ApiDie?)
    ensures var t, j := Apply(cfg, s, l), l.job;
            && t.workers == s.workers && t.events == s.events && t.files == s.files && Extends(s.rows, t.rows)
            && j in t.calls && t.calls == s.calls[j := t.calls[j]]
            && (t.rows == s.rows || (j in t.rows && t.rows == s.rows[j := t.rows[j]]))
  {
    if l.Api? {
      CallOwns(cfg, s, l.job, l.out, l.id);
    }
  }

  lemma FrameTrue(cfg: Config, f: Faults, s: State, t: State, j: JobId)
    requires True(cfg, f, s) && CallsTrue(cfg, f, s)
    requires t.workers == s.workers && t.events == s.events && t.files == s.files && Extends(s.rows, t.rows)
    requires j in t.calls && t.calls == s.calls[j := t.calls[j]]
    requires t.rows == s.rows || (j in t.rows && t.rows == s.rows[j := t.rows[j]])
    requires j in t.rows ==> CallTrue(cfg, f, t, j) && RowTrue(cfg, f, j, t.rows[j])
    ensures True(cfg, f, t) && CallsTrue(cfg, f, t)
  {
    forall x | x in t.events ensures EventTrue(cfg, f, t.rows, t.files, x) {
      StillTrue(cfg, f, s, t, x);
    }
    forall i | i in t.rows ensures CallTrue(cfg, f, t, i) {
      if i != j { assert CallTrue(cfg, f, s, i); }
    }
  }

  lemma ApiTrue(cfg: Config, f: Faults, s: State, l: Label)
    requires True(cfg, f, s) && CallsTrue(cfg, f, s) && Owned(cfg, s)
    requires Enabled(s, l) && Allowed(f, s, l) && (l.Submit? || l.Api? || l.ApiDie?)
    ensures var t := Apply(cfg, s, l); True(cfg, f, t) && CallsTrue(cfg, f, t)
  {
    OwnCallTrue(cfg, f, s, l);
    OtherCalls(cfg, s, l);
    FrameTrue(cfg, f, s, Apply(cfg, s, l), l.job);
  }

  lemma MoveTrue(cfg: Config, f: Faults, s: State, l: Label)
    requires True(cfg, f, s) && CallsTrue(cfg, f, s) && Enabled(s, l)
    requires !l.Submit? && !l.Api? && !l.ApiDie? && (l.Work? ==> s.workers[l.w].Rejecting?)
    ensures var t := Apply(cfg, s, l); True(cfg, f, t) && CallsTrue(cfg, f, t)
  {
    var t := Apply(cfg, s, l);
    assert t.rows == s.rows && t.calls == s.calls && t.events == s.events && t.files == s.files;
    forall j | j in t.rows ensures CallTrue(cfg, f, t, j) {
      assert CallTrue(cfg, f, s, j);
    }
    forall w | w in t.workers ensures WorkerTrue(cfg, f, t.workers[w]) {
      if w in s.workers { assert WorkerTrue(cfg, f, s.workers[w]); }
    }
  }

  lemma TrueStep(cfg: Config, f: Faults, s: State, l: Label)
    requires True(cfg, f, s) && CallsTrue(cfg, f, s) && Owned(cfg, s) && ColumnsOk(cfg, s) && Levels(cfg, s) && Delayed(s)
    requires Enabled(s, l) && Allowed(f, s, l)
    ensures var t := Apply(cfg, s, l); True(cfg, f, t) && CallsTrue(cfg, f, t)
  {
    if l.Work? && s.workers[l.w].Working? {
      WorkTrue(cfg, f, s, l.w, l.out, l.id);
    } else if l.Submit? || l.Api? || l.ApiDie? {
      ApiTrue(cfg, f, s, l);
    } else {
      MoveTrue(cfg, f, s, l);
    }
  }

  lemma {:induction false} TrueAlways(cfg: Config, f: Faults, ls: seq<Label>)
    requires Run(cfg, f, ls)
    ensures True(cfg, f, Exec(cfg, ls)) && CallsTrue(cfg, f, Exec(cfg, ls))
  {
    if ls != [] {
      var before := ls[..|ls| - 1];
      TrueAlways(cfg, f, before);
      Conservation.FaultsWeaken(cfg, f, before);
      OwnedAlways(cfg, before);
      ColumnsAlways(cfg, before);
      RetryLevelsAlways(cfg, before);
      DelayedAlways(cfg, before);
      TrueStep(cfg, f, Exec(cfg, before), ls[|ls| - 1]);
    }
  }

  /**
    Whatever fails, an event on the bus goes to the user of its job and tells the truth: a completed one names the
    existing file of a document that was printed, a failed one the error that the payload explains, and the disk is
    blamed only when it may have refused the write of some attempt.
  */
  lemma EventsTellTheTruth(cfg: Config, f: Faults, s: State, e: JobEvent)
    requires Reachable(cfg, f, s) && e in s.events
    ensures EventTrue(cfg, f, s.rows, s.files, e) && e.userId == s.rows[e.jobId].userId
  {
    var ls :| Run(cfg, f, ls) && Exec(cfg, ls) == s;
    TrueAlways(cfg, f, ls);
    Conservation.FaultsWeaken(cfg, f, ls);
    OwnedAlways(cfg, ls);
    assert EventOwned(s.rows, e);
  }

  /**
    Whatever fails, the error text of a row tells the truth about payload, disk, retries and the faults that there
    were; a row that the API left unqueued is the inserted one, or marked as not queued.
  */
  lemma ErrorsTellTheTruth(cfg: Config, f: Faults, s: State, j: JobId)
    requires Reachable(cfg, f, s) && j in s.rows
    ensures RowTrue(cfg, f, j, s.rows[j]) && CallTrue(cfg, f, s, j)
    ensures s.rows[j].error.Some? <==> s.rows[j].status.Failed?
  {
    var ls :| Run(cfg, f, ls) && Exec(cfg, ls) == s;
    TrueAlways(cfg, f, ls);
    Conservation.FaultsWeaken(cfg, f, ls);
    ColumnsAlways(cfg, ls);
    assert RowOk(cfg, s, j);
  }
}
