/**
  The code of the worker pool and of `CreateJob`, call by call, while everybody else keeps running: whatever the
  others do in between and however the calls end, the code takes only steps of the state machine.
*/
module WorkerPool {
  import opened Domain
  import opened Generator
  import opened JobTable
  import opened Pipeline
  import Conservation
  import Ownership
  import Reports

  /** A step that neither worker `w` nor the call for job `j` takes itself. */
  predicate Foreign(l: Label, w: Option<WorkerId>, j: Option<JobId>) {
    match l
    case Work(v, _, _) => w != Some(v)
    case Crash(v) => w != Some(v)
    case Deliver(v, _) => w != Some(v)
    case Api(i, _, _) => j != Some(i)
    case ApiDie(i) => j != Some(i)
    case _ => true
  }

  /** A step that worker `w` or the call for job `j` takes itself, the process staying alive. */
  predicate OwnStep(l: Label, w: Option<WorkerId>, j: Option<JobId>) {
    (l.Work? && w == Some(l.w)) || (l.Api? && j == Some(l.job))
  }

  /** Since `was`, worker `w` and the call for `j` made calls, and the others did what they wanted. */
  predicate Grows(was: seq<Label>, now: seq<Label>, w: Option<WorkerId>, j: Option<JobId>) {
    was <= now && forall i | |was| <= i < |now| :: Foreign(now[i], w, j) || OwnStep(now[i], w, j)
  }

  lemma ForeignKeeps(cfg: Config, s: State, l: Label, w: Option<WorkerId>, j: Option<JobId>)
    requires Enabled(s, l) && Foreign(l, w, j)
    ensures var t := Apply(cfg, s, l); w.Some? && w.value in s.workers ==> w.value in t.workers && t.workers[w.value] == s.workers[w.value]
    ensures w.Some? && w.value !in s.workers ==> w.value !in Apply(cfg, s, l).workers
    ensures var t := Apply(cfg, s, l); j.Some? && j.value in s.calls ==> j.value in t.calls && t.calls[j.value] == s.calls[j.value]
  {
  }

  /** The step that worker `w`, or else the call for job `j`, takes when its outside call ends with `out`. */
  function Mine(w: Option<WorkerId>, j: Option<JobId>, out: Outcome, id: CopyId): Label
    requires w.Some? || j.Some?
  {
    if w.Some? then Work(w.value, out, id) else Api(j.value, out, id)
  }

  predicate NothingReady(s: State) {
    forall id | id in s.copies :: !s.copies[id].place.Main?
  }

  /** After `k` steps of the run the main queue was empty. */
  predicate IdleAt(cfg: Config, ls: seq<Label>, k: nat) {
    k <= |ls| && NothingReady(Exec(cfg, ls[..k]))
  }

  lemma StillIdleAt(cfg: Config, was: seq<Label>, now: seq<Label>, k: nat)
    requires IdleAt(cfg, was, k) && was <= now
    ensures IdleAt(cfg, now, k)
  {
    assert now[..k] == was[..k];
  }

  /** The deliveries that went to worker `w`, in order. */
  function TakenBy(ls: seq<Label>, w: WorkerId): seq<CopyId> {
    if ls == [] then []
    else
      var l := ls[|ls| - 1];
      TakenBy(ls[..|ls| - 1], w) + if l.Deliver? && l.w == w then [l.id] else []
  }

  function Somes<T>(xs: seq<Option<T>>): seq<T> {
    if xs == [] then []
    else Somes(xs[..|xs| - 1]) + if xs[|xs| - 1].Some? then [xs[|xs| - 1].value] else []
  }

  lemma SomesSnoc<T>(xs: seq<Option<T>>, x: Option<T>)
    ensures Somes(xs + [x]) == Somes(xs) + if x.Some? then [x.value] else []
  {
    assert (xs + [x])[..|xs|] == xs;
  }

  /** While worker `w` is at work, or waits, it takes no delivery. */
  lemma {:induction false} NoneTaken(was: seq<Label>, now: seq<Label>, w: WorkerId)
    requires Grows(was, now, Some(w), None)
    ensures TakenBy(now, w) == TakenBy(was, w)
  {
    if |was| < |now| {
      var before := now[..|now| - 1];
      assert now[|now| - 1] == now[|before|] && forall i | |was| <= i < |before| :: before[i] == now[i];
      NoneTaken(was, before, w);
    } else {
      assert was == now;
    }
  }

  /** What the step of a worker does beside publishing and acknowledging, when its call is on the table of jobs. */
  lemma TableStep(cfg: Config, s: State, w: WorkerId, out: Outcome, id: CopyId, rows: Table, ok: bool)
    requires Enabled(s, Work(w, out, id)) && s.workers[w].Working?
    requires var k := s.workers[w];
             var j := k.msg.jobId;
             match Request(k.msg, k.pc)
             case WriteStatus(status, path, error) =>
               && ok == (out.Ok? && j in s.rows)
               && rows == if ok then s.rows[j := WithStatus(s.rows[j], status, path, error, s.clock)] else s.rows
             case IncrementRetry =>
               && ok == out.Ok?
               && rows == if ok && j in s.rows then s.rows[j := s.rows[j].(retryCount := s.rows[j].retryCount + 1)] else s.rows
             case _ => false
    ensures var t := Apply(cfg, s, Work(w, out, id));
            t.rows == rows && t.copies == s.copies && t.events == s.events && t.files == s.files && t.clock == s.clock
    ensures var next := Resume(cfg, s.workers[w], ok, Ok);
            Apply(cfg, s, Work(w, out, id)).workers == if next.Some? then s.workers[w := next.value] else s.workers - {w}
  {
  }

  /** What it does when its call is the generator's. */
  lemma FileStep(cfg: Config, s: State, w: WorkerId, out: Outcome, id: CopyId, r: Result<string, GenError>, files: set<string>)
    requires Enabled(s, Work(w, out, id)) && s.workers[w].Working? && s.workers[w].pc.Generating?
    requires r == Generate(cfg.outputDir, s.workers[w].msg.jobId, s.workers[w].msg.payload, out.Ok?)
    requires files == if r.Success? then s.files + {r.value} else s.files
    ensures var t := Apply(cfg, s, Work(w, out, id));
            && t.rows == s.rows && t.copies == s.copies && t.events == s.events && t.files == files && t.clock == s.clock
            && t.workers == s.workers[w := s.workers[w].(pc := if r.Success? then SetCompleted(r.value) else SetFailed(r.error))]
  {
  }

  /** What it does when its call is an event. */
  lemma EmitStep(cfg: Config, s: State, w: WorkerId, out: Outcome, id: CopyId, e: JobEvent)
    requires Enabled(s, Work(w, out, id)) && s.workers[w].Working? && Request(s.workers[w].msg, s.workers[w].pc) == Emit(e)
    ensures var t, k := Apply(cfg, s, Work(w, out, id)), s.workers[w];
            && t.rows == s.rows && t.copies == s.copies && t.files == s.files && t.clock == s.clock
            && t.events == (if out.Ok? then s.events + [e] else s.events)
            && var next := Resume(cfg, k, true, Ok);
            t.workers == if next.Some? then s.workers[w := next.value] else s.workers - {w}
  {
  }

  /** What it does when its call is an acknowledgement. */
  lemma AckStep(cfg: Config, s: State, w: WorkerId, out: Outcome, id: CopyId)
    requires Enabled(s, Work(w, out, id)) && s.workers[w].Working? && (s.workers[w].pc.AckDone? || s.workers[w].pc.AckFailed?)
    ensures var t, k := Apply(cfg, s, Work(w, out, id)), s.workers[w];
            && t.rows == s.rows && t.events == s.events && t.files == s.files && t.clock == s.clock
            && t.copies == (if out.Ok? then s.copies - {k.tag} else s.copies)
            && var next := Resume(cfg, k, true, Ok);
            t.workers == if next.Some? then s.workers[w := next.value] else s.workers - {w}
  {
  }

  /** What it does when its call is the publish to a retry queue, or to the DLQ. */
  lemma PublishStep(cfg: Config, s: State, w: WorkerId, out: Outcome, id: CopyId, place: Place, ok: bool)
    requires Enabled(s, Work(w, out, id)) && s.workers[w].Working?
    requires var k := s.workers[w];
             || (k.pc.RetryPublish? && place == Retry(k.msg.retryCount) && ok == (out.Ok? && 1 <= k.msg.retryCount <= 3))
             || (k.pc.DlqPublish? && place == Dlq && ok == out.Ok?)
    ensures var t, k := Apply(cfg, s, Work(w, out, id)), s.workers[w];
            && t.rows == s.rows && t.events == s.events && t.files == s.files && t.clock == s.clock
            && t.copies == (if ok then s.copies[id := Copy(Parsed(k.msg), place, s.clock)] else s.copies)
            && var next := Resume(cfg, k, ok, out);
            t.workers == if next.Some? then s.workers[w := next.value] else s.workers - {w}
  {
  }

  class System {
    const cfg: Config
    /** What may go wrong. */
    const faults: Faults
    const repo: JobRepository
    var copies: map<CopyId, Copy>
    var events: seq<JobEvent>
    var files: set<string>
    var clock: nat
    /** Where every worker and every API call stands, and the history of the jobs. */
    var workers: map<WorkerId, Worker>
    var calls: map<JobId, Call>
    var ledgers: map<JobId, Ledger>
    /** What the others want to do before each of the coming calls, and how those calls want to end. */
    var schedule: seq<seq<Label>>
    var answers: seq<Outcome>
    /** The steps taken so far. */
    ghost var trace: seq<Label>

    constructor (cfg: Config, faults: Faults, schedule: seq<seq<Label>>, answers: seq<Outcome>)
      ensures Valid() && trace == [] && this.cfg == cfg && this.faults == faults && fresh(repo)
      ensures this.schedule == schedule && this.answers == answers
    {
      this.cfg, this.faults := cfg, faults;
      repo := new JobRepository();
      copies, events, files, clock := map[], [], {}, 0;
      workers, calls, ledgers := map[], map[], map[];
      this.schedule, this.answers, trace := schedule, answers, [];
    }

    function Snapshot(): State
      reads this, repo
    {
      State(calls, repo.rows, copies, workers, events, files, ledgers, clock)
    }

    /** What the objects hold is what the steps taken so far make of the state machine. */
    ghost predicate Valid()
      reads this, repo
    {
      Run(cfg, faults, trace) && Snapshot() == Exec(cfg, trace)
    }

    /** The state that the run `ls` makes. */
    method Load(s: State, ghost ls: seq<Label>)
      requires Run(cfg, faults, ls) && s == Exec(cfg, ls)
      modifies repo, this`copies, this`events, this`files, this`clock, this`workers, this`calls, this`ledgers, this`trace
      ensures Valid() && trace == ls && Snapshot() == s
    {
      repo.rows := s.rows;
      copies, events, files, clock := s.copies, s.events, s.files, s.clock;
      workers, calls, ledgers := s.workers, s.calls, s.ledgers;
      trace := ls;
    }

    /** One step of somebody else. */
    method Step(l: Label)
      requires Valid() && Enabled(Snapshot(), l) && Allowed(faults, Snapshot(), l)
      modifies this, repo
      ensures Valid() && trace == old(trace) + [l] && Snapshot() == Apply(cfg, old(Snapshot()), l)
      ensures schedule == old(schedule) && answers == old(answers)
    {
      RunSnoc(cfg, faults, trace, l);
      Load(Apply(cfg, Snapshot(), l), trace + [l]);
    }

    /** The others run before worker `w`, or the call for job `j`, makes its next call. */
    method Others(w: Option<WorkerId>, j: Option<JobId>)
      requires Valid()
      modifies this, repo
      ensures Valid() && Grows(old(trace), trace, w, j)
      ensures w.Some? && w.value in old(workers) ==> w.value in workers && workers[w.value] == old(workers)[w.value]
      ensures w.Some? && w.value !in old(workers) ==> w.value !in workers
      ensures j.Some? && j.value in old(calls) ==> j.value in calls && calls[j.value] == old(calls)[j.value]
    {
      if schedule == [] { return; }
      var turn := schedule[0];
      schedule := schedule[1..];
      var i := 0;
      while i < |turn|
        invariant 0 <= i <= |turn| && Valid() && Grows(old(trace), trace, w, j)
        invariant w.Some? && w.value in old(workers) ==> w.value in workers && workers[w.value] == old(workers)[w.value]
        invariant w.Some? && w.value !in old(workers) ==> w.value !in workers
        invariant j.Some? && j.value in old(calls) ==> j.value in calls && calls[j.value] == old(calls)[j.value]
      {
        if Enabled(Snapshot(), turn[i]) && Allowed(faults, Snapshot(), turn[i]) && Foreign(turn[i], w, j) {
          ForeignKeeps(cfg, Snapshot(), turn[i], w, j);
          Step(turn[i]);
        }
        i := i + 1;
      }
    }

    /** An identity for the next message. */
    method NewId() returns (id: CopyId)
      ensures Fresh(Snapshot(), id)
    {
      id := 0;
      var left := copies.Keys;
      while left != {}
        invariant left <= copies.Keys && forall c | c in copies && c !in left :: c < id
        decreases |left|
      {
        var c :| c in left;
        left := left - {c};
        if id <= c { id := c + 1; }
      }
      var rest := workers.Keys;
      while rest != {}
        invariant rest <= workers.Keys && (forall c | c in copies :: c < id) && forall v | v in workers && v !in rest :: workers[v].tag < id
        decreases |rest|
      {
        var v :| v in rest;
        if id <= workers[v].tag { id := workers[v].tag + 1; }
        rest := rest - {v};
      }
    }

    /** The others run; then the next call of worker `w`, or of the call for job `j`, gets an identity and its ending. */
    method Turn(w: Option<WorkerId>, j: Option<JobId>) returns (id: CopyId, out: Outcome)
      requires Valid() && (w.Some? || j.Some?)
      requires w.Some? ==> w.value in workers
      requires j.Some? ==> j.value in calls && calls[j.value].Open()
      modifies this, repo
      ensures Valid() && Grows(old(trace), trace, w, j)
      ensures Enabled(Snapshot(), Mine(w, j, out, id)) && Allowed(faults, Snapshot(), Mine(w, j, out, id))
      ensures w.Some? ==> w.value in workers && workers[w.value] == old(workers)[w.value]
      ensures j.Some? ==> j.value in calls && calls[j.value] == old(calls)[j.value]
    {
      Others(w, j);
      id := NewId();
      out := Ok;
      if answers != [] {
        out := answers[0];
        answers := answers[1..];
      }
      if !Allowed(faults, Snapshot(), Mine(w, j, out, id)) { out := Ok; }
      if !Allowed(faults, Snapshot(), Mine(w, j, out, id)) { out := Err; }
    }

    /** Takes down the step of worker `w`, or of the call for `j`, once the objects show its effect. */
    method Record(before: State, w: Option<WorkerId>, j: Option<JobId>, out: Outcome, id: CopyId, ghost was: seq<Label>)
      requires (w.Some? || j.Some?) && Grows(was, trace, w, j)
      requires var l := Mine(w, j, out, id);
               Run(cfg, faults, trace) && before == Exec(cfg, trace) && Enabled(before, l) && Allowed(faults, before, l)
      requires var t := Apply(cfg, before, Mine(w, j, out, id));
               repo.rows == t.rows && copies == t.copies && events == t.events && files == t.files && clock == t.clock
      modifies this`workers, this`calls, this`ledgers, this`trace
      ensures Valid() && Grows(was, trace, w, j) && Snapshot() == Apply(cfg, before, Mine(w, j, out, id))
    {
      var l := Mine(w, j, out, id);
      var t := Apply(cfg, before, l);
      workers, calls, ledgers := t.workers, t.calls, t.ledgers;
      RunSnoc(cfg, faults, trace, l);
      trace := trace + [l];
    }

    // ---------------------------------------------------------------- calls of a worker

    /** Worker `w`, handling `m`, is about to make the call `op`. */
    ghost predicate AboutTo(w: WorkerId, m: JobMessage, op: Op)
      reads this, repo
    {
      Valid() && w in workers && workers[w].Working? && workers[w].msg == m && Request(m, workers[w].pc) == op
    }

    /** Worker `w` stands where its last call left it. */
    ghost predicate Left(w: WorkerId, next: Option<Worker>)
      reads this, repo
    {
      Valid() && if next.Some? then w in workers && workers[w] == next.value else w !in workers
    }

    method UpdateStatus(w: WorkerId, m: JobMessage, status: Status, path: Option<string>, error: Option<RowError>) returns (ok: bool)
      requires AboutTo(w, m, WriteStatus(status, path, error))
      modifies this, repo
      ensures Left(w, Resume(cfg, old(workers[w]), ok, Ok)) && Grows(old(trace), trace, Some(w), None)
    {
      var id, out := Turn(Some(w), None);
      var before := Snapshot();
      ok := repo.UpdateStatus(m.jobId, status, path, error, clock, out.Ok?);
      TableStep(cfg, before, w, out, id, repo.rows, ok);
      Record(before, Some(w), None, out, id, old(trace));
    }

    method IncrementRetry(w: WorkerId, m: JobMessage) returns (ok: bool)
      requires AboutTo(w, m, Op.IncrementRetry)
      modifies this, repo
      ensures Left(w, Resume(cfg, old(workers[w]), ok, Ok)) && Grows(old(trace), trace, Some(w), None)
    {
      var id, out := Turn(Some(w), None);
      var before := Snapshot();
      ok := repo.IncrementRetry(m.jobId, out.Ok?);
      TableStep(cfg, before, w, out, id, repo.rows, ok);
      Record(before, Some(w), None, out, id, old(trace));
    }

    method PublishEvent(w: WorkerId, m: JobMessage, status: Status, path: Option<string>, error: Option<RowError>)
      requires AboutTo(w, m, Emit(EventOf(m, status, path, error)))
      modifies this, repo
      ensures Left(w, Resume(cfg, old(workers[w]), true, Ok)) && Grows(old(trace), trace, Some(w), None)
    {
      var id, out := Turn(Some(w), None);
      var before := Snapshot();
      if out.Ok? {
        events := events + [JobEvent(m.jobId, m.userId, status, path, error)];
      }
      EmitStep(cfg, before, w, out, id, EventOf(m, status, path, error));
      Record(before, Some(w), None, out, id, old(trace));
    }

    method GeneratePdf(w: WorkerId, m: JobMessage) returns (r: Result<string, GenError>)
      requires AboutTo(w, m, Render)
      modifies this, repo
      ensures Left(w, Some(old(workers[w]).(pc := if r.Success? then SetCompleted(r.value) else SetFailed(r.error)))) && Grows(old(trace), trace, Some(w), None)
    {
      var id, out := Turn(Some(w), None);
      var before := Snapshot();
      r := Generate(cfg.outputDir, m.jobId, m.payload, out.Ok?);
      if r.Success? {
        files := files + {r.value};
      }
      FileStep(cfg, before, w, out, id, r, files);
      Record(before, Some(w), None, out, id, old(trace));
    }

    method Ack(w: WorkerId, m: JobMessage)
      requires AboutTo(w, m, Op.Ack)
      modifies this, repo
      ensures Left(w, Resume(cfg, old(workers[w]), true, Ok)) && Grows(old(trace), trace, Some(w), None)
    {
      var id, out := Turn(Some(w), None);
      var before := Snapshot();
      if out.Ok? {
        copies := copies - {workers[w].tag};
      }
      AckStep(cfg, before, w, out, id);
      Record(before, Some(w), None, out, id, old(trace));
    }

    /** Encodes the message and publishes it to the queue of the level, which has to be 1, 2 or 3. */
    method PublishToRetry(w: WorkerId, m: JobMessage, level: int) returns (ok: bool, encoded: bool)
      requires AboutTo(w, m, PublishRetry(level))
      modifies this, repo
      ensures Left(w, Resume(cfg, old(workers[w]), ok, if encoded then Ok else BadJson)) && (ok ==> encoded) && Grows(old(trace), trace, Some(w), None)
    {
      var id, out := Turn(Some(w), None);
      var before := Snapshot();
      encoded := !out.BadJson?;
      ok := out.Ok? && 1 <= level <= 3;
      if ok {
        copies := copies[id := Copy(Parsed(m), Retry(level), clock)];
      }
      PublishStep(cfg, before, w, out, id, Retry(level), ok);
      Record(before, Some(w), None, out, id, old(trace));
    }

    method PublishToDLQ(w: WorkerId, m: JobMessage)
      requires AboutTo(w, m, PublishDead)
      modifies this, repo
      ensures Left(w, None) && Grows(old(trace), trace, Some(w), None)
    {
      var id, out := Turn(Some(w), None);
      var before := Snapshot();
      if out.Ok? {
        copies := copies[id := Copy(Parsed(m), Dlq, clock)];
      }
      PublishStep(cfg, before, w, out, id, Dlq, out.Ok?);
      Record(before, Some(w), None, out, id, old(trace));
    }

    /** Rejects a delivery whose body does not parse, without requeueing it. */
    method Nack(w: WorkerId)
      requires Valid() && w in workers && workers[w].Rejecting?
      modifies this, repo
      ensures Left(w, None) && Grows(old(trace), trace, Some(w), None)
    {
      var id, out := Turn(Some(w), None);
      var before := Snapshot();
      var tag := workers[w].tag;
      if out.Ok? && tag in copies {
        copies := copies[tag := copies[tag].(place := Dlq, since := clock)];
      }
      Record(before, Some(w), None, out, id, old(trace));
    }

    // ---------------------------------------------------------------- the code of a worker

    /** Worker `w`, handling `m` under the delivery `tag`, stands at `pc`. */
    ghost predicate At(w: WorkerId, tag: CopyId, m: JobMessage, pc: Pc)
      reads this, repo
    {
      Valid() && w in workers && workers[w] == Working(tag, m, pc)
    }

    /** The end of `Process` when no document came out. */
    method ReportFailure(w: WorkerId, tag: CopyId, m: JobMessage, e: GenError)
      requires At(w, tag, m, SetFailed(e))
      modifies this, repo
      ensures At(w, tag, m, AckFailed(NotRendered(e))) && Grows(old(trace), trace, Some(w), None)
    {
      var ok := UpdateStatus(w, m, Failed, None, Some(GenerationFailed(e)));
      PublishEvent(w, m, Failed, None, Some(GenerationFailed(e)));
    }

    /** The end of `Process` when the document is written. */
    method ReportSuccess(w: WorkerId, tag: CopyId, m: JobMessage, path: string) returns (ok: bool)
      requires At(w, tag, m, SetCompleted(path))
      modifies this, repo
      ensures At(w, tag, m, if ok then AckDone else AckFailed(StatusNotWritten(Completed))) && Grows(old(trace), trace, Some(w), None)
    {
      ok := UpdateStatus(w, m, Completed, Some(path), None);
      if ok {
        PublishEvent(w, m, Completed, Some(path), None);
      }
    }

    /** The beginning of `Process`. */
    method ReportStart(w: WorkerId, tag: CopyId, m: JobMessage) returns (ok: bool)
      requires At(w, tag, m, SetProcessing)
      modifies this, repo
      ensures At(w, tag, m, if ok then Generating else AckFailed(StatusNotWritten(Processing))) && Grows(old(trace), trace, Some(w), None)
    {
      ok := UpdateStatus(w, m, Processing, None, None);
      if ok {
        PublishEvent(w, m, Processing, None, None);
      }
    }

    method Process(w: WorkerId, tag: CopyId, m: JobMessage) returns (err: Option<Cause>)
      requires At(w, tag, m, SetProcessing)
      modifies this, repo
      ensures At(w, tag, m, if err.None? then AckDone else AckFailed(err.value)) && Grows(old(trace), trace, Some(w), None)
    {
      var ok := ReportStart(w, tag, m);
      if !ok {
        return Some(StatusNotWritten(Processing));
      }
      var r := GeneratePdf(w, m);
      if r.Failure? {
        ReportFailure(w, tag, m, r.error);
        return Some(NotRendered(r.error));
      }
      ok := ReportSuccess(w, tag, m, r.value);
      return if ok then None else Some(StatusNotWritten(Completed));
    }

    /** The next attempt: into the retry queue of its level, or marked failed. */
    method SendToRetry(w: WorkerId, tag: CopyId, m: JobMessage)
      requires At(w, tag, m, RetryPublish)
      modifies this, repo
      ensures Left(w, None) && Grows(old(trace), trace, Some(w), None)
    {
      var ok, encoded := PublishToRetry(w, m, m.retryCount);
      if !encoded {
        ok := UpdateStatus(w, m, Failed, None, Some(RetryNotEncoded));
      } else if !ok {
        ok := UpdateStatus(w, m, Failed, None, Some(RetryNotPublished(m.retryCount)));
      }
    }

    /** No attempt is left: marked failed, and into the DLQ. */
    method GiveUp(w: WorkerId, tag: CopyId, m: JobMessage, cause: Cause)
      requires At(w, tag, m, MarkExhausted(cause))
      modifies this, repo
      ensures Left(w, None) && Grows(old(trace), trace, Some(w), None)
    {
      var ok := UpdateStatus(w, m, Failed, None, Some(RetriesExhausted(cause)));
      PublishToDLQ(w, m);
    }

    /** The delivery is acknowledged, and the retry counted in the row, whether or not these calls succeed. */
    method AckAndCount(w: WorkerId, tag: CopyId, m: JobMessage, err: Cause)
      requires At(w, tag, m, AckFailed(err))
      modifies this, repo
      ensures Grows(old(trace), trace, Some(w), None)
      ensures if m.retryCount + 1 <= cfg.maxRetries then At(w, tag, m.(retryCount := m.retryCount + 1), RetryPublish)
              else At(w, tag, m, MarkExhausted(err))
    {
      Ack(w, m);
      var ok := IncrementRetry(w, m);
    }

    /** What `processMessage` does about an error: acknowledge, count, and send the message on. */
    method HandleError(w: WorkerId, tag: CopyId, m: JobMessage, err: Cause)
      requires At(w, tag, m, AckFailed(err))
      modifies this, repo
      ensures Left(w, None) && Grows(old(trace), trace, Some(w), None)
    {
      AckAndCount(w, tag, m, err);
      var nextRetry := m.retryCount + 1;
      if nextRetry <= cfg.maxRetries {
        SendToRetry(w, tag, m.(retryCount := nextRetry));
      } else {
        GiveUp(w, tag, m, err);
      }
    }

    /** A delivery is handled to its end, whatever the others do and however the calls end. */
    method ProcessMessage(w: WorkerId)
      requires Valid() && w in workers
      requires workers[w].Working? ==> workers[w].pc.SetProcessing?
      modifies this, repo
      ensures Left(w, None) && Grows(old(trace), trace, Some(w), None)
    {
      if workers[w].Rejecting? {
        Nack(w);
        return;
      }
      var tag, m := workers[w].tag, workers[w].msg;
      var err := Process(w, tag, m);
      if err.Some? {
        HandleError(w, tag, m, err.value);
      } else {
        Ack(w, m);
      }
    }

    /** One turn of an idle worker: a delivery, if there is one, is taken and handled to its end. */
    method ServeOne(w: WorkerId) returns (taken: Option<CopyId>)
      requires Valid() && w !in workers
      modifies this, repo
      ensures Left(w, None) && old(trace) <= trace
      ensures taken.None? ==> NothingReady(Snapshot())
      ensures TakenBy(trace, w) == TakenBy(old(trace), w) + if taken.Some? then [taken.value] else []
    {
      Others(Some(w), None);
      NoneTaken(old(trace), trace, w);
      var ready := set c | c in copies && copies[c].place.Main?;
      if ready == {} {
        assert forall c | c in copies :: c !in ready;
        return None;
      }
      var id :| id in ready;
      Step(Deliver(w, id));
      ghost var started := trace;
      ProcessMessage(w);
      NoneTaken(started, trace, w);
      return Some(id);
    }

    /**
      The loop of an idle worker, for as many turns as it gets before it is told to stop. In each turn it took one
      delivery and handled it to its end, or the main queue was empty: `at[i]` steps into the run, in turn `i`.
    */
    method Serve(w: WorkerId, turns: nat) returns (taken: seq<Option<CopyId>>, ghost at: seq<nat>)
      requires Valid() && w !in workers
      modifies this, repo
      ensures Left(w, None) && old(trace) <= trace
      ensures |taken| == |at| == turns && TakenBy(trace, w) == TakenBy(old(trace), w) + Somes(taken)
      ensures forall i | 0 <= i < turns && taken[i].None? :: |old(trace)| <= at[i] && IdleAt(cfg, trace, at[i])
    {
      taken, at := [], [];
      var i := 0;
      while i < turns
        invariant 0 <= i <= turns && Left(w, None) && old(trace) <= trace
        invariant |taken| == |at| == i && TakenBy(trace, w) == TakenBy(old(trace), w) + Somes(taken)
        invariant forall k | 0 <= k < i && taken[k].None? :: |old(trace)| <= at[k] && IdleAt(cfg, trace, at[k])
      {
        ghost var before := trace;
        var one := ServeOne(w);
        forall k | 0 <= k < i && taken[k].None? ensures IdleAt(cfg, trace, at[k]) {
          StillIdleAt(cfg, before, trace, at[k]);
        }
        assert trace[..|trace|] == trace;
        SomesSnoc(taken, one);
        taken, at := taken + [one], at + [|trace|];
        i := i + 1;
      }
    }

    // ---------------------------------------------------------------- the code of the API

    /** Call `j` stands at `pc`. */
    ghost predicate CallAt(j: JobId, user: UserId, template: string, payload: Payload, pc: CallPc)
      reads this, repo
    {
      Valid() && j in calls && calls[j] == Call(user, template, payload, pc)
    }

    /** Before the insert there is no row. */
    lemma NotYetInserted(j: JobId)
      requires Valid() && j in calls && calls[j].pc.Inserting?
      ensures j !in repo.rows
    {
      Conservation.FaultsWeaken(cfg, faults, trace);
      Ownership.OwnedAlways(cfg, trace);
    }

    method Create(j: JobId, user: UserId, template: string, payload: Payload) returns (ok: bool)
      requires CallAt(j, user, template, payload, Inserting)
      modifies this, repo
      ensures CallAt(j, user, template, payload, if ok then Publishing else Refused) && Grows(old(trace), trace, None, Some(j))
      ensures !faults.insert ==> ok
    {
      var id, out := Turn(None, Some(j));
      var before := Snapshot();
      NotYetInserted(j);
      ok := repo.Create(j, user, template, payload, cfg.apiMaxRetries, out.Ok?);
      Record(before, None, Some(j), out, id, old(trace));
    }

    method PublishJob(j: JobId, m: JobMessage) returns (ok: bool, encoded: bool)
      requires CallAt(j, m.userId, m.template, m.payload, Publishing) && m == FirstMessage(cfg, j, calls[j])
      modifies this, repo
      ensures CallAt(j, m.userId, m.template, m.payload, if ok then Accepted else if encoded then Compensating else Abandoned)
      ensures (ok ==> encoded) && Grows(old(trace), trace, None, Some(j))
      ensures (!faults.encode ==> encoded) && (!faults.encode && !faults.publish ==> ok)
    {
      var id, out := Turn(None, Some(j));
      var before := Snapshot();
      ok, encoded := out.Ok?, !out.BadJson?;
      if ok {
        copies := copies[id := Copy(Parsed(m), Main, clock)];
      }
      Record(before, None, Some(j), out, id, old(trace));
    }

    method MarkNotQueued(j: JobId, user: UserId, template: string, payload: Payload)
      requires CallAt(j, user, template, payload, Compensating)
      modifies this, repo
      ensures CallAt(j, user, template, payload, Refused) && Grows(old(trace), trace, None, Some(j))
    {
      var id, out := Turn(None, Some(j));
      var before := Snapshot();
      var ok := repo.UpdateStatus(j, Failed, None, Some(NotQueued), clock, out.Ok?);
      Record(before, None, Some(j), out, id, old(trace));
    }

    /**
      Call `j` has ended and its request is still the one that was made. If a row was inserted, it is for that request;
      if the job was not queued, that row is as inserted, or marked when the publish failed and the mark could be written.
    */
    ghost predicate Answered(j: JobId, user: UserId, template: string, payload: Payload, accepted: bool)
      reads this, repo
    {
      && Valid() && j in calls && !calls[j].Open()
      && calls[j] == Call(user, template, payload, calls[j].pc)
      && (accepted <==> calls[j].pc.Accepted?)
      && (accepted ==> j in repo.rows)
      && (j in repo.rows ==>
            var row := repo.rows[j];
            && row.userId == user && row.template == template && row.payload == payload && row.maxRetries == cfg.apiMaxRetries
            && (!accepted ==> row.retryCount == 0 && row.filePath.None?)
            && (!accepted && row.status.Failed? ==> row.error == Some(NotQueued) && faults.publish)
            && (!accepted && !row.status.Failed? ==> row.status.Pending? && (calls[j].pc.Abandoned? || (faults.publish && faults.status))))
    }

    /** What is known of a call that has ended. */
    lemma AnswerOf(j: JobId)
      requires Valid() && j in calls && !calls[j].Open()
      ensures Answered(j, calls[j].user, calls[j].template, calls[j].payload, calls[j].pc.Accepted?)
    {
      var s := Snapshot();
      Conservation.FaultsWeaken(cfg, faults, trace);
      Ownership.OwnedAlways(cfg, trace);
      Reports.TrueAlways(cfg, faults, trace);
      assert j in s.rows ==> Ownership.RowOwned(cfg, s, j) && Reports.CallTrue(cfg, faults, s, j);
    }

    /** The rest of `CreateJob` after the insert: publish, and mark the row failed when that does not work. */
    method Enqueue(j: JobId, user: UserId, template: string, payload: Payload) returns (accepted: bool)
      requires CallAt(j, user, template, payload, Publishing)
      modifies this, repo
      ensures Answered(j, user, template, payload, accepted) && Grows(old(trace), trace, None, Some(j))
      ensures !faults.encode && !faults.publish ==> accepted
    {
      var ok, encoded := PublishJob(j, JobMessage(j, user, template, payload, 0, cfg.apiMaxRetries));
      accepted := ok;
      if !encoded {
        AnswerOf(j);
        return;
      }
      if !ok {
        MarkNotQueued(j, user, template, payload);
      }
      AnswerOf(j);
    }

    /**
      `j` comes from the generator of UUIDs. A call is answered with success iff its message is queued, which it is when
      neither insert nor encoding nor publish may fail; and what it creates is what was asked for.
    */
    method CreateJob(j: JobId, user: UserId, template: string, payload: Payload) returns (accepted: bool)
      requires Valid() && j !in calls
      modifies this, repo
      ensures Answered(j, user, template, payload, accepted) && Grows(old(trace), trace, None, Some(j))
      ensures !faults.insert && !faults.encode && !faults.publish ==> accepted
    {
      Step(Submit(j, user, template, payload));
      var ok := Create(j, user, template, payload);
      if !ok {
        AnswerOf(j);
        return false;
      }
      accepted := Enqueue(j, user, template, payload);
    }
  }
}
