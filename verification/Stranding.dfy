/**
  Which jobs can be left behind: a row that is neither completed nor failed, with nobody left to change it. A job is
  stranded if that happens although its API call did not end between insert and publish.
*/
module Stranding {
  import opened Domain
  import opened Pipeline
  import opened Decomposition
  import opened Conservation
  import opened Ownership
  import opened Lone
  import opened RetryLevels

  /** The API call is, or ended, between insert and publish. */
  predicate Unreported(s: State, j: JobId) {
    j in s.calls && (s.calls[j].pc.Publishing? || s.calls[j].pc.Compensating? || s.calls[j].pc.Abandoned?)
  }

  predicate Unfinished(s: State, j: JobId) {
    j in s.rows && !s.rows[j].status.Terminal()
  }

  /** A live message of job `j`: in the main queue, in a retry queue, or unacknowledged. */
  predicate HasLiveMessage(s: State, j: JobId) {
    exists id :: id in s.copies && About(s.copies[id].body, j) && s.copies[id].Live()
  }

  predicate SomebodyWorks(s: State, j: JobId) {
    exists w :: w in s.workers && WorksOn(s.workers[w], j)
  }

  predicate Stranded(s: State, j: JobId) {
    Unfinished(s, j) && !Unreported(s, j) && !HasLiveMessage(s, j) && !SomebodyWorks(s, j)
  }

  // ---------------------------------------------------------------- what keeps a job from being stranded

  /** A live message that is not about to be acknowledged. */
  predicate Anchor(s: State, id: CopyId) {
    && id in s.copies && s.copies[id].Live()
    && forall w | w in s.workers && s.workers[w].tag == id ::
         s.workers[w].Working? && (s.workers[w].pc.SetProcessing? || s.workers[w].pc.MidProcess())
  }

  predicate MidWorker(s: State, w: WorkerId) {
    w in s.workers && s.workers[w].Working? && s.workers[w].pc.MidProcess()
  }

  /** For a single job: an unfinished row has the API, a message to come back, or a worker on its way to a terminal status. */
  ghost predicate Backed(s: State, j: JobId) {
    Unfinished(s, j) ==> Unreported(s, j) || (exists id :: Anchor(s, id)) || (exists w :: MidWorker(s, w))
  }

  /** The same without counting on the worker. */
  ghost predicate Anchored(s: State, j: JobId) {
    Unfinished(s, j) ==> Unreported(s, j) || (exists id :: Anchor(s, id))
  }

  /** A job in a queue or with a worker, or being published, has its row. */
  predicate Rooted(s: State, j: JobId) {
    && (s.copies != map[] || s.workers != map[] || (j in s.calls && (s.calls[j].pc.Publishing? || s.calls[j].pc.Compensating?)) ==> j in s.rows)
    && (j in s.rows ==> j in s.calls && !s.calls[j].pc.Inserting?)
  }

  /** A worker's next step if status writes succeed and the row exists. */
  lemma ActTerminates(cfg: Config, f: Faults, s: State, j: JobId, w: WorkerId, out: Outcome, id: CopyId)
    requires w in s.workers && WorksOn(s.workers[w], j) && j in s.rows && Fresh(s, id)
    requires !f.status && Allowed(f, s, Work(w, out, id))
    ensures var e, pc := EffectOf(cfg, s, w, out), s.workers[w].pc;
            && (e.row.Some? && !e.row.value.status.Terminal() ==>
                  pc.SetProcessing? || (pc.Incrementing? && e.row.value.status == s.rows[j].status))
            && (pc.SetProcessing? ==> e.next.Some? && e.next.value.Working? && e.next.value.pc.MidProcess() && !e.ack)
            && (pc.MidProcess() ==> !e.ack && e.next.Some? && e.next.value.Working? &&
                                    ((e.row.Some? && e.row.value.status.Terminal()) || e.next.value.pc.MidProcess()))
            && (e.next.Some? ==> e.next.value.Working? && e.next.value.tag == s.workers[w].tag)
  {
  }

  lemma BackedWork(cfg: Config, f: Faults, s: State, j: JobId, w: WorkerId, out: Outcome, id: CopyId)
    requires Backed(s, j) && TagsOk(s) && w in s.workers && WorksOn(s.workers[w], j) && j in s.rows && Fresh(s, id)
    requires !f.status && Allowed(f, s, Work(w, out, id))
    ensures Backed(Apply(cfg, s, Work(w, out, id)), j)
    ensures Anchored(s, j) && TagsHeld(s) ==> Anchored(Apply(cfg, s, Work(w, out, id)), j)
  {
    ActTerminates(cfg, f, s, j, w, out, id);
    var e := EffectOf(cfg, s, w, out);
    var t := Apply(cfg, s, Work(w, out, id));
    var pc := s.workers[w].pc;
    if Unfinished(t, j) {
      if pc.SetProcessing? {
        assert MidWorker(t, w);
        if s.workers[w].tag in s.copies { assert Anchor(t, s.workers[w].tag); }
      } else {
        assert Unfinished(s, j);
        forall i | Anchor(s, i) ensures Anchor(t, i) {
          if s.workers[w].tag == i { assert pc.MidProcess(); }
        }
        forall v | MidWorker(s, v) ensures MidWorker(t, v) {
        }
      }
    }
  }

  lemma BackedApi(cfg: Config, f: Faults, s: State, j: JobId, out: Outcome, id: CopyId)
    requires Backed(s, j) && Rooted(s, j) && Solo(cfg, s, j) && j in s.calls && s.calls[j].Open() && Fresh(s, id)
    requires !f.status && Allowed(f, s, Api(j, out, id))
    ensures Backed(Apply(cfg, s, Api(j, out, id)), j)
    ensures Anchored(s, j) ==> Anchored(Apply(cfg, s, Api(j, out, id)), j)
  {
    var t := Apply(cfg, s, Api(j, out, id));
    if s.calls[j].pc.Publishing? && out.Ok? {
      assert Anchor(t, id);
    }
  }

  lemma BackedMove(cfg: Config, f: Faults, s: State, l: Label, j: JobId)
    requires Backed(s, j) && Rooted(s, j) && TagsOk(s) && Solo(cfg, s, j) && Enabled(s, l) && Concerns(s, l, j) && Allowed(f, s, l)
    requires !l.Work? && !l.Api?
    ensures !l.Crash? ==> Backed(Apply(cfg, s, l), j)
    ensures Anchored(s, j) ==> Anchored(Apply(cfg, s, l), j)
  {
    var t := Apply(cfg, s, l);
    forall i | Anchor(s, i) ensures Anchor(t, if l.Redeliver? && i == l.id then l.id' else i) {
    }
    if !l.Crash? {
      forall v | MidWorker(s, v) ensures MidWorker(t, v) {
      }
    }
  }

  // ---------------------------------------------------------------- every run

  lemma RootedAlways(cfg: Config, f: Faults, ls: seq<Label>, j: JobId)
    requires Run(cfg, f, ls)
    ensures Rooted(Restrict(cfg, Exec(cfg, ls), j), j)
  {
    FaultsWeaken(cfg, f, ls);
    OwnedAlways(cfg, ls);
    var s, r := Exec(cfg, ls), Restrict(cfg, Exec(cfg, ls), j);
    if r.copies != map[] {
      var id :| id in r.copies;
      assert MessageOwned(s.rows, s.copies[id].body.msg);
    }
    if r.workers != map[] {
      var w :| w in r.workers;
      assert MessageOwned(s.rows, s.workers[w].msg);
    }
    assert j in s.rows ==> RowOwned(cfg, s, j);
  }

  lemma RestrictHeld(cfg: Config, s: State, j: JobId)
    requires TagsHeld(s) && TagsOk(s)
    ensures TagsHeld(Restrict(cfg, s, j))
  {
  }

  lemma {:induction false} AnchoredAlways(cfg: Config, f: Faults, ls: seq<Label>, j: JobId)
    requires Run(cfg, f, ls) && !f.status && !f.redelivery.Anytime?
    ensures Anchored(Restrict(cfg, Exec(cfg, ls), j), j)
  {
    if ls != [] {
      var before := ls[..|ls| - 1];
      AnchoredAlways(cfg, f, before, j);
      RootedAlways(cfg, f, before, j);
      HeldAlways(cfg, f, before);
      TagsAlways(cfg, f, before);
      RestrictHeld(cfg, Exec(cfg, before), j);
      var r, l, moved := LastStep(cfg, f, ls, j);
      if moved {
        match l
        case Work(w, out, id) => BackedWork(cfg, f, r, j, w, out, id);
        case Api(_, out, id) => BackedApi(cfg, f, r, j, out, id);
        case _ => BackedMove(cfg, f, r, l, j);
      }
    }
  }

  lemma {:induction false} BackedAlways(cfg: Config, f: Faults, ls: seq<Label>, j: JobId)
    requires Run(cfg, f, ls) && !f.status && !f.crash
    ensures Backed(Restrict(cfg, Exec(cfg, ls), j), j)
  {
    if ls != [] {
      var before := ls[..|ls| - 1];
      BackedAlways(cfg, f, before, j);
      RootedAlways(cfg, f, before, j);
      var r, l, moved := LastStep(cfg, f, ls, j);
      if moved {
        match l
        case Work(w, out, id) => BackedWork(cfg, f, r, j, w, out, id);
        case Api(_, out, id) => BackedApi(cfg, f, r, j, out, id);
        case _ => BackedMove(cfg, f, r, l, j);
      }
    }
  }

  /**
    While status writes succeed and a delivery returns to the queue only after its holder has stopped, every pending
    or processing job has a live message, or its API call is, or ended, between insert and publish; under any crashes,
    redeliveries, failed acknowledgements, duplicates and failed publishes.
  */
  lemma NoStrandedJob(cfg: Config, f: Faults, ls: seq<Label>, j: JobId)
    requires Run(cfg, f, ls) && !f.status && !f.redelivery.Anytime?
    ensures Unfinished(Exec(cfg, ls), j) ==> Unreported(Exec(cfg, ls), j) || HasLiveMessage(Exec(cfg, ls), j)
  {
    AnchoredAlways(cfg, f, ls, j);
    var s, r := Exec(cfg, ls), Restrict(cfg, Exec(cfg, ls), j);
    if Unfinished(s, j) && !Unreported(s, j) {
      assert Unfinished(r, j) && !Unreported(r, j);
      var id :| Anchor(r, id);
      assert About(s.copies[id].body, j) && s.copies[id].Live();
    }
  }

  /** The same holds without the condition on redelivery if nobody crashes, counting the workers still on the job. */
  lemma NobodyCrashesNobodyStrands(cfg: Config, f: Faults, ls: seq<Label>, j: JobId)
    requires Run(cfg, f, ls) && !f.status && !f.crash
    ensures !Stranded(Exec(cfg, ls), j)
  {
    BackedAlways(cfg, f, ls, j);
    var s, r := Exec(cfg, ls), Restrict(cfg, Exec(cfg, ls), j);
    if Unfinished(s, j) && !Unreported(s, j) {
      assert Unfinished(r, j) && !Unreported(r, j);
      if id :| Anchor(r, id) {
        assert About(s.copies[id].body, j) && s.copies[id].Live();
      } else {
        var w :| MidWorker(r, w);
        assert w in s.workers && WorksOn(s.workers[w], j);
      }
    }
  }

  /** A stranded job stays as it is, whatever happens. */
  lemma StrandedStep(cfg: Config, s: State, l: Label, j: JobId)
    requires Stranded(s, j) && Rooted(Restrict(cfg, s, j), j) && Enabled(s, l)
    ensures Stranded(Apply(cfg, s, l), j) && Apply(cfg, s, l).rows[j] == s.rows[j]
  {
    assert Restrict(cfg, s, j).calls[j] == s.calls[j];
    if l.Work? && s.workers[l.w].Working? {
      ActKeepsTag(cfg, s, l.w, l.out);
      StrandedPatch(s, l.w, EffectOf(cfg, s, l.w, l.out), l.id, j);
    } else {
      StrandedMove(cfg, s, l, j);
    }
  }

  /** A worker on another job leaves a stranded job alone. */
  lemma StrandedPatch(s: State, w: WorkerId, e: Effect, id: CopyId, j: JobId)
    requires Stranded(s, j) && w in s.workers && s.workers[w].Working?
    requires e.next.Some? ==> e.next.value.Working? && e.next.value.msg.jobId == s.workers[w].msg.jobId
    requires e.put.Some? ==> About(e.put.value.body, s.workers[w].msg.jobId)
    ensures Stranded(Patch(s, w, e, id), j) && Patch(s, w, e, id).rows[j] == s.rows[j]
  {
    var t := Patch(s, w, e, id);
    assert !WorksOn(s.workers[w], j);
    assert !SomebodyWorks(t, j);
    assert !HasLiveMessage(t, j);
  }

  lemma StrandedMove(cfg: Config, s: State, l: Label, j: JobId)
    requires Stranded(s, j) && Rooted(Restrict(cfg, s, j), j) && Enabled(s, l) && j in s.calls && !s.calls[j].pc.Inserting?
    requires l.Work? ==> s.workers[l.w].Rejecting?
    ensures Stranded(Apply(cfg, s, l), j) && Apply(cfg, s, l).rows[j] == s.rows[j]
  {
    if l.Submit? || l.Api? || l.ApiDie? || l.Tick? {
      StrandedCall(cfg, s, l, j);
    } else {
      var t := Apply(cfg, s, l);
      assert !SomebodyWorks(t, j);
      assert !HasLiveMessage(t, j);
    }
  }

  lemma StrandedCall(cfg: Config, s: State, l: Label, j: JobId)
    requires Stranded(s, j) && Enabled(s, l) && j in s.calls && !s.calls[j].Open()
    requires l.Submit? || l.Api? || l.ApiDie? || l.Tick?
    ensures Stranded(Apply(cfg, s, l), j) && Apply(cfg, s, l).rows[j] == s.rows[j]
  {
    var t := Apply(cfg, s, l);
    assert !SomebodyWorks(t, j);
    assert !HasLiveMessage(t, j);
  }

  lemma {:induction false} StrandedForever(cfg: Config, f: Faults, ls: seq<Label>, n: nat, j: JobId)
    requires Run(cfg, f, ls) && n <= |ls| && Stranded(Exec(cfg, ls[..n]), j)
    ensures Stranded(Exec(cfg, ls), j) && Exec(cfg, ls).rows[j] == Exec(cfg, ls[..n]).rows[j]
  {
    if n == |ls| {
      assert ls[..n] == ls;
    } else {
      var before := ls[..|ls| - 1];
      assert before[..n] == ls[..n];
      StrandedForever(cfg, f, before, n, j);
      RootedAlways(cfg, f, before, j);
      StrandedStep(cfg, Exec(cfg, before), ls[|ls| - 1], j);
    }
  }

  // ---------------------------------------------------------------- failing status writes strand

  /** The message of a lone worker is refused by `PublishToRetry`. */
  lemma Refused(cfg: Config, f: Faults, s: State, j: JobId, p: Payload, tag: CopyId, status: Status) returns (t: State)
    requires Reachable(cfg, f, s) && Serving(cfg, s, j, p, 4, tag, RetryPublish, status)
    ensures Reachable(cfg, f, t) && Serving(cfg, t, j, p, 4, tag, MarkDropped(RetryNotPublished(4)), status)
  {
    PublishEffect(cfg, s, 1);
    t := WorkOn(cfg, f, s, 1, Ok, tag + 1);
  }

  /** The last call of a lone worker that has no message to requeue: a row not marked. */
  lemma LeftUnmarked(cfg: Config, f: Faults, s: State, j: JobId, p: Payload, n: int, tag: CopyId, e: RowError) returns (t: State)
    requires Reachable(cfg, f, s) && Serving(cfg, s, j, p, n, tag, MarkDropped(e), Pending) && f.status
    ensures Reachable(cfg, f, t) && Stranded(t, j)
  {
    UnmarkedEffect(cfg, s, 1);
    t := WorkOn(cfg, f, s, 1, Err, tag + 1);
    assert t.workers == map[] && t.copies == map[];
  }

  /** Or a publish to the DLQ. */
  lemma LeftInDlq(cfg: Config, f: Faults, s: State, j: JobId, p: Payload, n: int, tag: CopyId) returns (t: State)
    requires Reachable(cfg, f, s) && Serving(cfg, s, j, p, n, tag, DlqPublish, Pending)
    ensures Reachable(cfg, f, t) && Stranded(t, j)
  {
    PublishEffect(cfg, s, 1);
    t := WorkOn(cfg, f, s, 1, Ok, tag + 1);
    assert t.workers == map[];
    assert forall id | id in t.copies :: t.copies[id].place.Dlq?;
  }

  /** The end of the retries when the row cannot be marked. */
  lemma GivenUp(cfg: Config, f: Faults, s: State, j: JobId, p: Payload, tag: CopyId, c: Cause) returns (t: State)
    requires Reachable(cfg, f, s) && f.status && Serving(cfg, s, j, p, LastLevel(cfg), tag, Incrementing(c), Pending)
    ensures Reachable(cfg, f, t) && Stranded(t, j)
  {
    var n := LastLevel(cfg);
    if cfg.maxRetries <= 3 {
      t := Exhausted(cfg, f, s, j, p, n, tag, c);
      t := LeftInDlq(cfg, f, t, j, p, n, tag);
    } else {
      t := Counted(cfg, f, s, j, p, n, tag, c, Pending);
      t := Refused(cfg, f, t, j, p, tag, Pending);
      t := LeftUnmarked(cfg, f, t, j, p, 4, tag, RetryNotPublished(4));
    }
  }

  lemma Exhausted(cfg: Config, f: Faults, s: State, j: JobId, p: Payload, n: nat, tag: CopyId, c: Cause) returns (t: State)
    requires Reachable(cfg, f, s) && f.status && Serving(cfg, s, j, p, n, tag, Incrementing(c), Pending) && n >= cfg.maxRetries
    ensures Reachable(cfg, f, t) && Serving(cfg, t, j, p, n, tag, DlqPublish, Pending)
  {
    t := Inside(cfg, f, s, j, p, n, tag, Incrementing(c), Ok, Pending);
    t := Inside(cfg, f, t, j, p, n, tag, MarkExhausted(c), Err, Pending);
  }

  lemma {:induction false} NeverWritten(cfg: Config, f: Faults, s: State, j: JobId, p: Payload, n: nat, tag: CopyId) returns (t: State)
    requires Reachable(cfg, f, s) && f.status && n <= LastLevel(cfg) && Serving(cfg, s, j, p, n, tag, SetProcessing, Pending)
    ensures Reachable(cfg, f, t) && Stranded(t, j)
    decreases LastLevel(cfg) - n
  {
    var c := StatusNotWritten(Processing);
    t := Inside(cfg, f, s, j, p, n, tag, SetProcessing, Err, Pending);
    if n < LastLevel(cfg) {
      t := NextAttempt(cfg, f, t, j, p, n, tag, c, Pending);
      t := NeverWritten(cfg, f, t, j, p, n + 1, tag + 1);
    } else {
      t := Acknowledged(cfg, f, t, j, p, n, tag, c, Pending);
      t := GivenUp(cfg, f, t, j, p, tag, c);
    }
  }

  /**
    Whatever the configuration, if every status write fails, a job runs through all its attempts and ends in the
    dead-letter queue, or dropped, while its row still says `pending`.
  */
  lemma UnwrittenStatusStrands(cfg: Config, f: Faults, j: JobId) returns (s: State)
    requires f.status
    ensures Reachable(cfg, f, s) && Stranded(s, j)
  {
    s := Begun(cfg, f, j, Unparseable);
    s := NeverWritten(cfg, f, s, j, Unparseable, 0, 0);
  }

  // ---------------------------------------------------------------- a stale worker that crashes strands

  /** Worker `w` serves the witness job, whose payload does not parse, so that its generation fails whatever the disk does. */
  predicate Doing(cfg: Config, s: State, j: JobId, w: WorkerId, tag: CopyId, pc: Pc) {
    w in s.workers && s.workers[w] == Working(tag, Message(cfg, j, Unparseable, 0), pc) && j in s.rows && Fresh(s, 9)
  }

  /** What one call of a worker on the witness job must leave. */
  predicate Called(s: State, t: State, j: JobId, w: WorkerId, pc: Pc)
    requires w in s.workers && s.workers[w].Working? && j in s.rows
  {
    && t.calls == s.calls && t.copies == s.copies
    && t.workers == s.workers[w := s.workers[w].(pc := pc)]
    && t.rows.Keys == s.rows.Keys && Fresh(t, 9)
  }

  /** The outcome of a file write that `f` prescribes. */
  function DiskSays(f: Faults, j: JobId): Outcome {
    if f.disk.Oracle? && !f.disk.writes(j, 0) then Err else Ok
  }

  /** Where a call of `Process` on the witness job takes its worker. */
  function OnTheWay(pc: Pc): Pc {
    match pc
    case SetProcessing => EmitProcessing
    case EmitProcessing => Generating
    case Generating => SetFailed(BadPayload)
    case SetFailed(e) => EmitFailed(e)
    case EmitFailed(e) => AckFailed(NotRendered(e))
    case _ => pc
  }

  lemma WriteOnce(cfg: Config, s: State, j: JobId, w: WorkerId, tag: CopyId, pc: Pc, out: Outcome)
    requires Doing(cfg, s, j, w, tag, pc) && (pc.SetProcessing? || pc.SetFailed?) && out.Ok?
    ensures var t := Patch(s, w, EffectOf(cfg, s, w, out), 9);
            && Called(s, t, j, w, OnTheWay(pc)) && Doing(cfg, t, j, w, tag, OnTheWay(pc))
            && (pc.SetProcessing? ==> t.rows[j].status == Processing)
  {
  }

  lemma TellOnce(cfg: Config, s: State, j: JobId, w: WorkerId, tag: CopyId, pc: Pc, out: Outcome)
    requires Doing(cfg, s, j, w, tag, pc) && (pc.EmitProcessing? || pc.EmitFailed?) && out.Ok?
    ensures var t := Patch(s, w, EffectOf(cfg, s, w, out), 9);
            && Called(s, t, j, w, OnTheWay(pc)) && Doing(cfg, t, j, w, tag, OnTheWay(pc))
  {
  }

  lemma RenderOnce(cfg: Config, s: State, j: JobId, w: WorkerId, tag: CopyId, pc: Pc, out: Outcome)
    requires Doing(cfg, s, j, w, tag, pc) && (pc.Generating?) && !out.BadJson?
    ensures var t := Patch(s, w, EffectOf(cfg, s, w, out), 9);
            && Called(s, t, j, w, OnTheWay(pc)) && Doing(cfg, t, j, w, tag, OnTheWay(pc))
  {
  }

  /** A call before the acknowledgement; a database call or an event goes well. */
  lemma CallOnce(cfg: Config, f: Faults, s: State, j: JobId, w: WorkerId, tag: CopyId, pc: Pc) returns (t: State)
    requires Reachable(cfg, f, s) && Doing(cfg, s, j, w, tag, pc)
    requires pc.SetProcessing? || pc.EmitProcessing? || pc.Generating? || pc.SetFailed? || pc.EmitFailed?
    ensures Reachable(cfg, f, t) && Called(s, t, j, w, OnTheWay(pc)) && Doing(cfg, t, j, w, tag, OnTheWay(pc))
    ensures pc.SetProcessing? ==> t.rows[j].status == Processing
  {
    if pc.Generating? {
      RenderOnce(cfg, s, j, w, tag, pc, DiskSays(f, j));
      t := WorkOn(cfg, f, s, w, DiskSays(f, j), 9);
    } else {
      if pc.SetProcessing? || pc.SetFailed? {
        WriteOnce(cfg, s, j, w, tag, pc, Ok);
      } else {
        TellOnce(cfg, s, j, w, tag, pc, Ok);
      }
      t := WorkOn(cfg, f, s, w, Ok, 9);
    }
  }

  lemma CalledOn(s: State, t: State, u: State, j: JobId, w: WorkerId, pc: Pc, next: Pc)
    requires w in s.workers && s.workers[w].Working? && j in s.rows && Called(s, t, j, w, pc)
    requires w in t.workers && t.workers[w].Working? && j in t.rows && Called(t, u, j, w, next)
    ensures Called(s, u, j, w, next)
  {
  }

  lemma CallTwice(cfg: Config, f: Faults, s: State, j: JobId, w: WorkerId, tag: CopyId, pc: Pc) returns (t: State)
    requires Reachable(cfg, f, s) && Doing(cfg, s, j, w, tag, pc)
    requires pc.SetProcessing? || pc.EmitProcessing? || pc.Generating? || pc.SetFailed?
    ensures Reachable(cfg, f, t) && Called(s, t, j, w, OnTheWay(OnTheWay(pc))) && Doing(cfg, t, j, w, tag, OnTheWay(OnTheWay(pc)))
  {
    var u := CallOnce(cfg, f, s, j, w, tag, pc);
    t := CallOnce(cfg, f, u, j, w, tag, OnTheWay(pc));
    CalledOn(s, u, t, j, w, OnTheWay(pc), OnTheWay(OnTheWay(pc)));
  }

  lemma FailedRun(cfg: Config, f: Faults, s: State, j: JobId, w: WorkerId, tag: CopyId) returns (t: State)
    requires Reachable(cfg, f, s) && Doing(cfg, s, j, w, tag, SetProcessing)
    ensures Reachable(cfg, f, t) && Called(s, t, j, w, AckFailed(NotRendered(BadPayload)))
  {
    var rendering := CallTwice(cfg, f, s, j, w, tag, SetProcessing);
    var failed := CallTwice(cfg, f, rendering, j, w, tag, Generating);
    CalledOn(s, rendering, failed, j, w, Generating, EmitFailed(BadPayload));
    t := CallOnce(cfg, f, failed, j, w, tag, EmitFailed(BadPayload));
    CalledOn(s, failed, t, j, w, EmitFailed(BadPayload), AckFailed(NotRendered(BadPayload)));
  }

  /** Two workers on the same message: the delivery of the first has been given to the second. */
  predicate TwoHold(cfg: Config, s: State, j: JobId) {
    && Doing(cfg, s, j, 1, 0, SetProcessing) && s.workers.Keys == {1, 2}
    && j in s.calls && s.calls[j].pc.Accepted?
  }

  lemma TwoHolders(cfg: Config, f: Faults, j: JobId) returns (s: State)
    requires f.redelivery.Anytime?
    ensures Reachable(cfg, f, s) && TwoHold(cfg, s, j) && Doing(cfg, s, j, 2, 1, SetProcessing) && s.copies.Keys == {1}
  {
    s := Begun(cfg, f, j, Unparseable);
    s := Stolen(cfg, f, s, j);
    s := Doubled(cfg, f, s, j);
  }

  lemma Doubled(cfg: Config, f: Faults, s: State, j: JobId) returns (t: State)
    requires Reachable(cfg, f, s) && OnlyJob(s, j, Unparseable, Pending)
    requires s.workers == map[1 := Working(0, Message(cfg, j, Unparseable, 0), SetProcessing)]
    requires s.copies.Keys == {1} && s.copies[1].body == Parsed(Message(cfg, j, Unparseable, 0)) && s.copies[1].place.Main?
    ensures Reachable(cfg, f, t) && TwoHold(cfg, t, j) && Doing(cfg, t, j, 2, 1, SetProcessing) && t.copies.Keys == {1}
  {
    t := DeliverOn(cfg, f, s, 2, 1);
    assert t.workers.Keys == {1, 2};
  }

  lemma Stolen(cfg: Config, f: Faults, s: State, j: JobId) returns (t: State)
    requires f.redelivery.Anytime? && Reachable(cfg, f, s) && Serving(cfg, s, j, Unparseable, 0, 0, SetProcessing, Pending)
    ensures Reachable(cfg, f, t) && OnlyJob(t, j, Unparseable, Pending)
    ensures t.workers == map[1 := Working(0, Message(cfg, j, Unparseable, 0), SetProcessing)]
    ensures t.copies.Keys == {1} && t.copies[1].body == Parsed(Message(cfg, j, Unparseable, 0)) && t.copies[1].place.Main?
  {
    t := ReachOn(cfg, f, s, Redeliver(0, 1));
  }

  lemma AckAndCrash(cfg: Config, f: Faults, s: State, j: JobId) returns (t: State)
    requires f.crash && Reachable(cfg, f, s) && TwoHold(cfg, s, j) && s.copies.Keys == {1}
    requires Doing(cfg, s, j, 2, 1, AckFailed(NotRendered(BadPayload)))
    ensures Reachable(cfg, f, t) && Doing(cfg, t, j, 1, 0, SetProcessing) && t.workers.Keys == {1} && t.copies == map[]
    ensures j in t.calls && t.calls[j].pc.Accepted?
  {
    AckEffect(cfg, s, 2);
    t := WorkOn(cfg, f, s, 2, Ok, 9);
    assert t.copies == map[];
    t := ReachOn(cfg, f, t, Crash(2));
  }

  /** A worker alone on an unfinished job, without a message, crashes. */
  lemma LastCrash(cfg: Config, f: Faults, s: State, j: JobId) returns (t: State)
    requires f.crash && Reachable(cfg, f, s) && s.workers.Keys == {1} && s.copies == map[] && Unfinished(s, j)
    requires j in s.calls && s.calls[j].pc.Accepted?
    ensures Reachable(cfg, f, t) && Stranded(t, j)
  {
    t := ReachOn(cfg, f, s, Crash(1));
    assert t.workers.Keys == {};
  }

  /**
    Whatever the configuration: a worker loses its delivery to another one, which fails and crashes; then the first
    begins, and crashes too.
  */
  lemma StaleCrashStrands(cfg: Config, f: Faults, j: JobId) returns (s: State)
    requires f.crash && f.redelivery.Anytime?
    ensures Reachable(cfg, f, s) && Stranded(s, j)
  {
    s := TwoHolders(cfg, f, j);
    s := FailedRun(cfg, f, s, j, 2, 1);
    s := AckAndCrash(cfg, f, s, j);
    s := CallOnce(cfg, f, s, j, 1, 0, SetProcessing);
    s := LastCrash(cfg, f, s, j);
  }

  // ---------------------------------------------------------------- the condition is exact

  ghost predicate StrandsNobody(cfg: Config, f: Faults) {
    forall s: State, j: JobId :: Reachable(cfg, f, s) ==> !Stranded(s, j)
  }

  /**
    Which faults must be excluded, whatever the configuration, so that no job is stranded whose API call has queued
    it, refused it, or is still open: failing status writes, and the combination of crashes with taking deliveries
    from workers that are still busy.
  */
  lemma StrandingExact(cfg: Config, f: Faults)
    ensures StrandsNobody(cfg, f) <==> !f.status && !(f.crash && f.redelivery.Anytime?)
  {
    if f.status {
      var s := UnwrittenStatusStrands(cfg, f, "j");
    } else if f.crash && f.redelivery.Anytime? {
      var s := StaleCrashStrands(cfg, f, "j");
    } else {
      forall s: State, j: JobId | Reachable(cfg, f, s) ensures !Stranded(s, j) {
        var ls :| Run(cfg, f, ls) && Exec(cfg, ls) == s;
        if f.crash {
          NoStrandedJob(cfg, f, ls, j);
        } else {
          NobodyCrashesNobodyStrands(cfg, f, ls, j);
        }
      }
    }
  }

  // ---------------------------------------------------------------- jobs whose API call died are left behind too

  /** Neither completed nor failed, and nobody is left to change that: no open call, no message, no worker. */
  predicate LeftBehind(s: State, j: JobId) {
    Unfinished(s, j) && !(j in s.calls && s.calls[j].Open()) && !HasLiveMessage(s, j) && !SomebodyWorks(s, j)
  }

  ghost predicate LeavesNobodyBehind(cfg: Config, f: Faults) {
    forall s: State, j: JobId :: Reachable(cfg, f, s) ==> !LeftBehind(s, j)
  }

  predicate NoneAbandoned(s: State) {
    forall j | j in s.calls :: !s.calls[j].pc.Abandoned?
  }

  lemma NoneAbandonedStep(cfg: Config, f: Faults, s: State, l: Label)
    requires NoneAbandoned(s) && Enabled(s, l) && Allowed(f, s, l) && !f.die && !f.encode
    ensures NoneAbandoned(Apply(cfg, s, l))
  {
  }

  lemma {:induction false} NoneAbandonedAlways(cfg: Config, f: Faults, ls: seq<Label>)
    requires Run(cfg, f, ls) && !f.die && !f.encode
    ensures NoneAbandoned(Exec(cfg, ls))
  {
    if ls != [] {
      NoneAbandonedAlways(cfg, f, ls[..|ls| - 1]);
      NoneAbandonedStep(cfg, f, Exec(cfg, ls[..|ls| - 1]), ls[|ls| - 1]);
    }
  }

  /** The API call ends between insert and publish: its process dies, or the message cannot be encoded. */
  lemma UnpublishedIsLeft(cfg: Config, f: Faults, j: JobId) returns (s: State)
    requires f.die || f.encode
    ensures Reachable(cfg, f, s) && LeftBehind(s, j)
  {
    s := RowWritten(cfg, f, j, Unparseable);
    if f.die {
      s := ReachOn(cfg, f, s, ApiDie(j));
    } else {
      s := ReachOn(cfg, f, s, Api(j, BadJson, 0));
    }
  }

  lemma StrandedIsLeft(cfg: Config, f: Faults, s: State, j: JobId)
    requires Reachable(cfg, f, s) && Stranded(s, j)
    ensures LeftBehind(s, j)
  {
    var ls :| Run(cfg, f, ls) && Exec(cfg, ls) == s;
    RootedAlways(cfg, f, ls, j);
    assert j in Restrict(cfg, s, j).rows && Restrict(cfg, s, j).calls[j] == s.calls[j];
  }

  /**
    Which faults a deployment must exclude, whatever its configuration, so that no row stays pending or processing
    with nobody left to change it: failing status writes, API processes that die, messages that cannot be encoded,
    and the combination of crashes with taking deliveries from workers that are still busy. Nothing else: failing
    inserts, increments, publishes, events and acknowledgements leave nobody behind.
  */
  lemma LeftBehindExact(cfg: Config, f: Faults)
    ensures LeavesNobodyBehind(cfg, f) <==> !f.status && !f.die && !f.encode && !(f.crash && f.redelivery.Anytime?)
  {
    if f.die || f.encode {
      var s := UnpublishedIsLeft(cfg, f, "j");
    } else if f.status || (f.crash && f.redelivery.Anytime?) {
      StrandingExact(cfg, f);
      var s: State, j: JobId :| Reachable(cfg, f, s) && Stranded(s, j);
      StrandedIsLeft(cfg, f, s, j);
    } else {
      StrandingExact(cfg, f);
      forall s: State, j: JobId | Reachable(cfg, f, s) ensures !LeftBehind(s, j) {
        var ls :| Run(cfg, f, ls) && Exec(cfg, ls) == s;
        NoneAbandonedAlways(cfg, f, ls);
        assert !Stranded(s, j);
      }
    }
  }
}
