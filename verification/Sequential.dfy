/**
  Without redelivery a job runs as a sequential program, however many workers and other jobs interleave: at any time
  it is with the API, in one queue, or with one worker, or it has ended.
*/
module Sequential {
  import opened Domain
  import opened Pipeline
  import opened Decomposition
  import opened Conservation
  import opened Ownership

  datatype Stage =
    | Absent
    | Calling
    | Queued(id: CopyId, msg: JobMessage, place: Place)
    | Busy(w: WorkerId, k: Worker)
    | Ended(dead: Option<JobMessage>)           // with what the DLQ holds of the job

  datatype Job = Job(
    stage: Stage,
    call: Option<Call>,
    row: Option<Row>,
    log: seq<JobEvent>,
    ledger: Ledger,
    clock: nat)

  const Start := Job(Absent, None, None, [], NoHistory, 0)

  // ---------------------------------------------------------------- the sequential program

  predicate Possible(x: Job, l: Label, j: JobId) {
    match l
    case Submit(i, _, _, _) => i == j && x.stage.Absent?
    case Api(i, _, _) => i == j && x.stage.Calling? && x.call.Some? && x.call.value.Open()
    case ApiDie(i) => i == j && x.stage.Calling? && x.call.Some? && x.call.value.Open()
    case Expire(id) => x.stage.Queued? && x.stage.id == id && x.stage.place.Retry?
    case Deliver(_, id) => x.stage.Queued? && x.stage.id == id && x.stage.place.Main?
    case Work(w, _, _) => x.stage.Busy? && x.stage.w == w && WorksOn(x.stage.k, j)
    case Crash(w) => x.stage.Busy? && x.stage.w == w && WorksOn(x.stage.k, j)
    case Tick(_) => true
    case _ => false
  }

  predicate Legal(f: Faults, x: Job, l: Label, j: JobId) {
    && Possible(x, l, j)
    && match l
       case Api(_, out, _) =>
         (match x.call.value.pc
          case Inserting => out.Ok? || f.insert
          case Compensating => out.Ok? || f.status
          case _ => PublishMayFail(f, out))
       case ApiDie(_) => f.die
       case Work(_, out, _) => MayFail(f, x.stage.k.msg, Request(x.stage.k.msg, x.stage.k.pc), out)
       case Crash(_) => f.crash
       case _ => true
  }

  function AfterCall(x: Job, e: CallEffect, id: CopyId): Job
    requires x.call.Some?
    requires e.put.Some? ==> e.put.value.body.Parsed?
  {
    var c := x.call.value.(pc := e.pc);
    x.(stage := if e.put.Some? then Queued(id, e.put.value.body.msg, e.put.value.place)
                else if c.Open() then Calling else Ended(None),
       call := Some(c),
       row := if e.row.Some? then e.row else x.row,
       ledger := e.ledger)
  }

  function AfterWork(x: Job, w: WorkerId, e: Effect, id: CopyId): Job
    requires e.put.Some? ==> e.put.value.body.Parsed?
  {
    x.(stage := if e.next.Some? then Busy(w, e.next.value)
                else if e.put.None? then Ended(None)
                else if e.put.value.place.Dlq? then Ended(Some(e.put.value.body.msg))
                else Queued(id, e.put.value.body.msg, e.put.value.place),
       row := if e.row.Some? then e.row else x.row,
       log := if e.event.Some? then x.log + [e.event.value] else x.log,
       ledger := e.ledger)
  }

  function Advance(cfg: Config, x: Job, l: Label, j: JobId): Job {
    if !Possible(x, l, j) then x else
    match l
    case Submit(_, user, template, payload) => x.(stage := Calling, call := Some(Call(user, template, payload, Inserting)))
    case Api(_, out, id) => AfterCall(x, CallAct(cfg, j, x.call.value, x.row, x.ledger, out, x.clock), id)
    case ApiDie(_) => AfterCall(x, DieAct(x.call.value, x.ledger), 0)
    case Expire(id) => x.(stage := x.stage.(place := Main))
    case Deliver(w, id) => x.(stage := Busy(w, Begin(id, Parsed(x.stage.msg))))
    case Work(w, out, id) => AfterWork(x, w, Act(cfg, x.stage.k, x.row, true, x.ledger, out, x.clock), id)
    case Crash(w) =>
      x.(stage := Ended(None), ledger := if x.stage.k.pc.Holding() then x.ledger.(lost := x.ledger.lost + 1) else x.ledger)
    case Tick(ms) => x.(clock := x.clock + ms)
    case _ => x
  }

  function Play(cfg: Config, ls: seq<Label>, j: JobId): Job {
    if ls == [] then Start else Advance(cfg, Play(cfg, ls[..|ls| - 1], j), ls[|ls| - 1], j)
  }

  predicate LegalPlay(cfg: Config, f: Faults, ls: seq<Label>, j: JobId) {
    ls != [] ==>
      LegalPlay(cfg, f, ls[..|ls| - 1], j) && Legal(f, Play(cfg, ls[..|ls| - 1], j), ls[|ls| - 1], j)
  }

  // ---------------------------------------------------------------- the system follows it

  predicate InStage(s: State, x: Stage, c: Option<Call>, hasRow: bool) {
    match x
    case Absent => c.None? && !hasRow && s.copies == map[] && s.workers == map[]
    case Calling => c.Some? && c.value.Open() && s.copies == map[] && s.workers == map[]
    case Queued(id, m, p) =>
      && c.Some? && !c.value.Open() && hasRow
      && s.workers == map[]
      && id in s.copies && s.copies[id].body == Parsed(m) && s.copies[id].place == p && (p.Main? || p.Retry?)
      && (forall o | o in s.copies && o != id :: s.copies[o].place.Unacked?)
    case Busy(w, k) =>
      && c.Some? && !c.value.Open() && hasRow
      && k.Working? && s.workers == map[w := k]
      && (forall o | o in s.copies :: s.copies[o].place.Unacked?)
      && (k.pc.BeforeAck() ==> k.tag in s.copies)
    case Ended(d) =>
      && c.Some? && !c.value.Open() && (d.Some? ==> hasRow)
      && s.workers == map[]
      && (forall o | o in s.copies && !s.copies[o].place.Unacked? :: s.copies[o].place.Dlq? && d.Some? && s.copies[o].body == Parsed(d.value))
      && (forall o, p | o in s.copies && p in s.copies && s.copies[o].place.Dlq? && s.copies[p].place.Dlq? :: o == p)
      && (d.Some? ==> exists o :: o in s.copies && s.copies[o].place.Dlq?)
  }

  /** The state of a single job, seen as a sequential program. */
  predicate Tracks(s: State, j: JobId, x: Job) {
    && x.call == (if j in s.calls then Some(s.calls[j]) else None)
    && x.row == RowOf(s, j)
    && x.log == s.events
    && x.ledger == LedgerOf(s, j)
    && x.clock == s.clock
    && InStage(s, x.stage, x.call, x.row.Some?)
  }

  lemma ActAcksOnce(cfg: Config, k: Worker, row: Option<Row>, led: Ledger, out: Outcome, now: nat)
    requires k.Working?
    ensures var e := Act(cfg, k, row, true, led, out, now);
            && (e.next.Some? ==> e.next.value.Working? && e.next.value.tag == k.tag && e.next.value.msg.jobId == k.msg.jobId && e.put.None?)
            && (e.next.Some? && e.next.value.pc.BeforeAck() ==> k.pc.BeforeAck() && !e.ack)
            && (e.ack ==> k.pc.BeforeAck())
            && (e.put.Some? ==> e.put.value.body == Parsed(k.msg) && (e.put.value.place.Retry? || e.put.value.place.Dlq?))
            && (e.row.Some? ==> row.Some?)
            && (k.pc.BeforeAck() ==> forall held: bool :: held ==> Act(cfg, k, row, held, led, out, now) == e)
            && (!k.pc.BeforeAck() ==> forall held: bool :: Act(cfg, k, row, held, led, out, now) == e)
  {
  }

  /** A call of the worker that is busy with the job, for an effect of the kind that calls have. */
  lemma TrackPatch(s: State, j: JobId, x: Job, w: WorkerId, e: Effect, id: CopyId)
    requires Tracks(s, j, x) && x.stage.Busy? && x.stage.w == w && WorksOn(x.stage.k, j) && Fresh(s, id)
    requires e.next.Some? ==> e.next.value.Working? && e.next.value.tag == x.stage.k.tag && e.put.None?
    requires e.next.Some? && e.next.value.pc.BeforeAck() ==> x.stage.k.pc.BeforeAck() && !e.ack
    requires e.put.Some? ==> e.put.value.body == Parsed(x.stage.k.msg) && (e.put.value.place.Retry? || e.put.value.place.Dlq?)
    ensures Tracks(Patch(s, w, e, id), j, AfterWork(x, w, e, id))
  {
    var t, y := Patch(s, w, e, id), AfterWork(x, w, e, id);
    if e.next.Some? {
      assert t.workers == map[w := e.next.value];
    } else {
      assert t.workers == map[];
    }
    if e.put.Some? { assert id in t.copies; }
    assert InStage(t, y.stage, y.call, y.row.Some?);
  }

  lemma TrackWork(cfg: Config, s: State, j: JobId, x: Job, w: WorkerId, out: Outcome, id: CopyId)
    requires Tracks(s, j, x) && x.stage.Busy? && x.stage.w == w && WorksOn(x.stage.k, j) && Fresh(s, id)
    ensures Tracks(Patch(s, w, EffectOf(cfg, s, w, out), id), j, AfterWork(x, w, Act(cfg, x.stage.k, x.row, true, x.ledger, out, x.clock), id))
  {
    var k := x.stage.k;
    ActAcksOnce(cfg, k, x.row, x.ledger, out, x.clock);
    assert EffectOf(cfg, s, w, out) == Act(cfg, k, x.row, true, x.ledger, out, x.clock);
    TrackPatch(s, j, x, w, EffectOf(cfg, s, w, out), id);
  }

  lemma TrackCall(cfg: Config, s: State, j: JobId, x: Job, e: CallEffect, id: CopyId)
    requires Tracks(s, j, x) && x.stage.Calling? && j in s.calls
    requires !e.pc.Inserting? && (e.put.Some? ==> e.pc.Accepted? && e.put.value.body.Parsed? && e.put.value.place.Main? && x.row.Some?)
    ensures Tracks(CallPatch(s, j, e, id), j, AfterCall(x, e, id))
  {
  }

  /** The row is there from the moment the call publishes. */
  predicate RowWhenPublishing(s: State, j: JobId) {
    j in s.calls && s.calls[j].pc.Publishing? ==> j in s.rows
  }

  /** The sequential program can make the step that the system makes. */
  lemma StepIsLegal(cfg: Config, f: Faults, s: State, l: Label, j: JobId, x: Job)
    requires Tracks(s, j, x) && Enabled(s, l) && Allowed(f, s, l) && Concerns(s, l, j) && f.redelivery.Never?
    ensures Legal(f, x, l, j)
  {
    match l
    case Work(w, _, _) => assert x.stage.Busy? && x.stage.w == w;
    case Crash(w) => assert x.stage.Busy? && x.stage.w == w;
    case Api(_, _, _) => assert x.stage.Calling?;
    case ApiDie(_) => assert x.stage.Calling?;
    case Deliver(_, id) => assert x.stage.Queued? && x.stage.id == id;
    case Expire(id) => assert x.stage.Queued? && x.stage.id == id;
    case _ =>
  }

  lemma TrackApi(cfg: Config, s: State, l: Label, j: JobId, x: Job)
    requires Tracks(s, j, x) && RowWhenPublishing(s, j) && Enabled(s, l) && Possible(x, l, j) && (l.Api? || l.ApiDie?)
    ensures Tracks(Apply(cfg, s, l), j, Advance(cfg, x, l, j))
  {
    if l.Api? {
      TrackCall(cfg, s, j, x, CallAct(cfg, j, s.calls[j], RowOf(s, j), LedgerOf(s, j), l.out, s.clock), l.id);
    } else {
      TrackCall(cfg, s, j, x, DieAct(s.calls[j], LedgerOf(s, j)), 0);
    }
  }

  lemma TrackCrash(cfg: Config, s: State, w: WorkerId, j: JobId, x: Job)
    requires Tracks(s, j, x) && Enabled(s, Crash(w)) && Possible(x, Crash(w), j)
    ensures Tracks(Apply(cfg, s, Crash(w)), j, Advance(cfg, x, Crash(w), j))
  {
    assert s.workers - {w} == map[];
  }

  lemma TrackDelivery(cfg: Config, s: State, w: WorkerId, id: CopyId, j: JobId, x: Job)
    requires Tracks(s, j, x) && Enabled(s, Deliver(w, id)) && Possible(x, Deliver(w, id), j)
    ensures Tracks(Apply(cfg, s, Deliver(w, id)), j, Advance(cfg, x, Deliver(w, id), j))
  {
    assert s.workers[w := Begin(id, s.copies[id].body)] == map[w := Begin(id, s.copies[id].body)];
  }

  lemma TrackMove(cfg: Config, s: State, l: Label, j: JobId, x: Job)
    requires Tracks(s, j, x) && Enabled(s, l) && Possible(x, l, j) && (l.Submit? || l.Expire? || l.Tick?)
    ensures Tracks(Apply(cfg, s, l), j, Advance(cfg, x, l, j))
  {
  }

  lemma TrackStep(cfg: Config, f: Faults, s: State, l: Label, j: JobId, x: Job)
    requires Tracks(s, j, x) && RowWhenPublishing(s, j)
    requires Enabled(s, l) && Allowed(f, s, l) && Concerns(s, l, j) && f.redelivery.Never?
    ensures Legal(f, x, l, j)
    ensures Tracks(Apply(cfg, s, l), j, Advance(cfg, x, l, j))
  {
    StepIsLegal(cfg, f, s, l, j, x);
    match l
    case Work(w, out, id) => TrackWork(cfg, s, j, x, w, out, id);
    case Crash(w) => TrackCrash(cfg, s, w, j, x);
    case Deliver(w, id) => TrackDelivery(cfg, s, w, id, j, x);
    case Api(_, _, _) => TrackApi(cfg, s, l, j, x);
    case ApiDie(_) => TrackApi(cfg, s, l, j, x);
    case _ => TrackMove(cfg, s, l, j, x);
  }

  lemma PublishingHasRow(cfg: Config, ls: seq<Label>, j: JobId)
    requires Run(cfg, AnyFault, ls)
    ensures RowWhenPublishing(Restrict(cfg, Exec(cfg, ls), j), j)
  {
    OwnedAlways(cfg, ls);
  }

  /** Under any faults but redelivery, every run of the system makes job `j` run the sequential program. */
  lemma {:induction false} RunsSequentially(cfg: Config, f: Faults, ls: seq<Label>, j: JobId)
    requires Run(cfg, f, ls) && f.redelivery.Never?
    ensures LegalPlay(cfg, f, Own(cfg, ls, j), j)
    ensures Tracks(Restrict(cfg, Exec(cfg, ls), j), j, Play(cfg, Own(cfg, ls, j), j))
  {
    if ls == [] {
      assert Restrict(cfg, Init, j) == Init;
    } else {
      var before := ls[..|ls| - 1];
      RunsSequentially(cfg, f, before, j);
      var r, l, moved := LastStep(cfg, f, ls, j);
      if moved {
        FaultsWeaken(cfg, f, before);
        PublishingHasRow(cfg, before, j);
        TrackStep(cfg, f, r, l, j, Play(cfg, Own(cfg, before, j), j));
        PlaySnoc(cfg, f, Own(cfg, before, j), l, j);
        assert Own(cfg, ls, j) == Own(cfg, before, j) + [l];
      } else {
        assert Own(cfg, ls, j) == Own(cfg, before, j);
      }
    }
  }

  lemma PlaySnoc(cfg: Config, f: Faults, ls: seq<Label>, l: Label, j: JobId)
    ensures Play(cfg, ls + [l], j) == Advance(cfg, Play(cfg, ls, j), l, j)
    ensures LegalPlay(cfg, f, ls + [l], j) <==> LegalPlay(cfg, f, ls, j) && Legal(f, Play(cfg, ls, j), l, j)
  {
    assert (ls + [l])[..|ls|] == ls;
  }
}
