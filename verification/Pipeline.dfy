/**
  The job pipeline as a state machine. A step is one database call, one publish, one acknowledgement, one file
  write, or one move of the message broker, so any number of workers and API calls interleave at every point where
  the program talks to the outside. A label carries everything a step does not decide itself: who moves, whether
  the outside call succeeds, and which identity a new message gets.
*/
module Pipeline {
  import opened Domain
  import opened Generator
  import opened JobTable

  /** `apiMaxRetries` is what the API writes into rows and messages; workers decide with their own `maxRetries`. */
  datatype Config = Config(maxRetries: int, apiMaxRetries: int, outputDir: string)

  // ---------------------------------------------------------------- messages

  type CopyId = nat
  type WorkerId = nat

  datatype Body = Malformed(bytes: string) | Parsed(msg: JobMessage)

  datatype Place = Main | Retry(level: int) | Unacked | Dlq

  /** A message held by the message broker, with the time at which it came to its place. */
  datatype Copy = Copy(body: Body, place: Place, since: nat)
  {
    predicate Queued() { place.Main? || place.Retry? }
    predicate Live() { !place.Dlq? }
  }

  predicate About(b: Body, j: JobId) { b.Parsed? && b.msg.jobId == j }

  /** `x-message-ttl` of the retry queues, in milliseconds. */
  function Ttl(level: int): nat {
    if level <= 1 then 1000 else if level == 2 then 5000 else 10000
  }

  // ---------------------------------------------------------------- workers

  /** Where a worker stands inside `processMessage` and `Process`: the call it is about to make. */
  datatype Pc =
    | SetProcessing
    | EmitProcessing
    | Generating
    | SetFailed(genError: GenError)
    | EmitFailed(genError: GenError)
    | SetCompleted(path: string)
    | EmitCompleted(path: string)
    | AckDone
    | AckFailed(cause: Cause)
    | Incrementing(cause: Cause)
    | RetryPublish
    | MarkDropped(rowError: RowError)
    | MarkExhausted(cause: Cause)
    | DlqPublish
  {
    /** The delivery has not been acknowledged yet. */
    predicate BeforeAck() {
      !Incrementing? && !RetryPublish? && !MarkDropped? && !MarkExhausted? && !DlqPublish?
    }

    /** The delivery is acknowledged and the message not yet passed on. */
    predicate Holding() { Incrementing? || RetryPublish? || MarkExhausted? || DlqPublish? }

    /** `Process` has begun its status write and not yet written a terminal status. */
    predicate MidProcess() { EmitProcessing? || Generating? || SetFailed? || SetCompleted? }
  }

  datatype Worker =
    | Rejecting(tag: CopyId, bytes: string)
    | Working(tag: CopyId, msg: JobMessage, pc: Pc)

  predicate WorksOn(k: Worker, j: JobId) { k.Working? && k.msg.jobId == j }

  /** How an outside call ends; `BadJson` is a failing `json.Marshal` before a publish. */
  datatype Outcome = Ok | Err | BadJson

  /** The outside call that a program point makes. */
  datatype Op =
    | WriteStatus(status: Status, filePath: Option<string>, error: Option<RowError>)
    | IncrementRetry
    | Emit(event: JobEvent)
    | Render
    | Ack
    | PublishRetry(level: int)
    | PublishDead

  function EventOf(m: JobMessage, status: Status, path: Option<string>, error: Option<RowError>): JobEvent {
    JobEvent(m.jobId, m.userId, status, path, error)
  }

  function Request(m: JobMessage, pc: Pc): Op {
    match pc
    case SetProcessing => WriteStatus(Processing, None, None)
    case EmitProcessing => Emit(EventOf(m, Processing, None, None))
    case Generating => Render
    case SetFailed(e) => WriteStatus(Failed, None, Some(GenerationFailed(e)))
    case EmitFailed(e) => Emit(EventOf(m, Failed, None, Some(GenerationFailed(e))))
    case SetCompleted(path) => WriteStatus(Completed, Some(path), None)
    case EmitCompleted(path) => Emit(EventOf(m, Completed, Some(path), None))
    case AckDone => Ack
    case AckFailed(_) => Ack
    case Incrementing(_) => IncrementRetry
    case RetryPublish => PublishRetry(m.retryCount)
    case MarkDropped(e) => WriteStatus(Failed, None, Some(e))
    case MarkExhausted(c) => WriteStatus(Failed, None, Some(RetriesExhausted(c)))
    case DlqPublish => PublishDead
  }

  /** Whether the call reports success: a status write needs its row, and retry levels other than 1..3 are refused. */
  predicate Succeeds(op: Op, rowExists: bool, out: Outcome) {
    && out.Ok?
    && (op.WriteStatus? ==> rowExists)
    && (op.PublishRetry? ==> 1 <= op.level <= 3)
  }

  /** The worker after its call returned; `None` once `processMessage` has returned. */
  function Resume(cfg: Config, k: Worker, ok: bool, out: Outcome): Option<Worker>
    requires k.Working?
  {
    var m := k.msg;
    match k.pc
    case SetProcessing =>
      Some(k.(pc := if ok then EmitProcessing else AckFailed(StatusNotWritten(Processing))))
    case EmitProcessing => Some(k.(pc := Generating))
    case Generating =>
      (match Generate(cfg.outputDir, m.jobId, m.payload, ok)
       case Success(path) => Some(k.(pc := SetCompleted(path)))
       case Failure(e) => Some(k.(pc := SetFailed(e))))
    case SetFailed(e) => Some(k.(pc := EmitFailed(e)))
    case EmitFailed(e) => Some(k.(pc := AckFailed(NotRendered(e))))
    case SetCompleted(path) =>
      Some(k.(pc := if ok then EmitCompleted(path) else AckFailed(StatusNotWritten(Completed))))
    case EmitCompleted(_) => Some(k.(pc := AckDone))
    case AckDone => None
    case AckFailed(c) => Some(k.(pc := Incrementing(c)))
    case Incrementing(c) =>
      var nextRetry := m.retryCount + 1;
      if nextRetry <= cfg.maxRetries then Some(k.(msg := m.(retryCount := nextRetry), pc := RetryPublish))
      else Some(k.(pc := MarkExhausted(c)))
    case RetryPublish =>
      if ok then None
      else Some(k.(pc := MarkDropped(if out.BadJson? then RetryNotEncoded else RetryNotPublished(m.retryCount))))
    case MarkDropped(_) => None
    case MarkExhausted(_) => Some(k.(pc := DlqPublish))
    case DlqPublish => None
  }

  // ---------------------------------------------------------------- history

  /**
    Per-job history that no step reads: when the API published the job, how many messages ended as done or dropped,
    were lost in a crash, or were duplicated by an acknowledgement without effect; how many attempts failed; and
    how many increments of `retry_count` failed.
  */
  datatype Ledger = Ledger(published: Option<nat>, done: nat, dropped: nat, lost: nat, dup: nat, failed: nat, missed: nat)

  const NoHistory := Ledger(None, 0, 0, 0, 0, 0, 0)

  function Book(cfg: Config, k: Worker, removed: bool, ok: bool, out: Outcome, led: Ledger): Ledger
    requires k.Working?
  {
    match k.pc
    case SetProcessing => if ok then led else led.(failed := led.failed + 1)
    case SetCompleted(_) => if ok then led else led.(failed := led.failed + 1)
    case EmitFailed(_) => led.(failed := led.failed + 1)
    case AckDone => led.(done := led.done + 1, dup := if removed then led.dup else led.dup + 1)
    case AckFailed(_) => led.(dup := if removed then led.dup else led.dup + 1)
    case Incrementing(_) => if out.Ok? then led else led.(missed := led.missed + 1)
    case RetryPublish => if ok then led else led.(dropped := led.dropped + 1)
    case DlqPublish => if ok then led else led.(dropped := led.dropped + 1)
    case _ => led
  }

  // ---------------------------------------------------------------- one call of a worker

  /** What one call of a worker does to the row of its job, the broker, the files, the event bus and the worker. */
  datatype Effect = Effect(
    row: Option<Row>,
    ack: bool,
    put: Option<Copy>,
    event: Option<JobEvent>,
    file: Option<string>,
    next: Option<Worker>,
    ledger: Ledger)

  function Act(cfg: Config, k: Worker, row: Option<Row>, tagHeld: bool, led: Ledger, out: Outcome, now: nat): Effect
    requires k.Working?
  {
    var op := Request(k.msg, k.pc);
    var ok := Succeeds(op, row.Some?, out);
    var removed := op.Ack? && out.Ok? && tagHeld;
    Effect(
      if op.WriteStatus? && ok then Some(WithStatus(row.value, op.status, op.filePath, op.error, now))
      else if op.IncrementRetry? && ok && row.Some? then Some(row.value.(retryCount := row.value.retryCount + 1))
      else None,
      op.Ack? && out.Ok?,
      if op.PublishRetry? && ok then Some(Copy(Parsed(k.msg), Retry(op.level), now))
      else if op.PublishDead? && ok then Some(Copy(Parsed(k.msg), Dlq, now))
      else None,
      if op.Emit? && ok then Some(op.event) else None,
      if op.Render? && Generate(cfg.outputDir, k.msg.jobId, k.msg.payload, ok).Success?
      then Some(PathOf(cfg.outputDir, k.msg.jobId)) else None,
      Resume(cfg, k, ok, out),
      Book(cfg, k, removed, ok, out, led))
  }

  // ---------------------------------------------------------------- the whole system

  /** Where `CreateJob` stands; `Abandoned` calls ended between insert and publish, by a crash or a failed encoding. */
  datatype CallPc = Inserting | Publishing | Compensating | Accepted | Refused | Abandoned
  {
    /** The row is inserted. */
    predicate Created() { Publishing? || Compensating? || Accepted? }
  }

  datatype Call = Call(user: UserId, template: string, payload: Payload, pc: CallPc)
  {
    predicate Open() { pc.Inserting? || pc.Publishing? || pc.Compensating? }
  }

  datatype State = State(
    calls: map<JobId, Call>,
    rows: Table,
    copies: map<CopyId, Copy>,
    workers: map<WorkerId, Worker>,
    events: seq<JobEvent>,
    files: set<string>,
    ledgers: map<JobId, Ledger>,
    clock: nat)

  const Init := State(map[], map[], map[], map[], [], {}, map[], 0)

  function LedgerOf(s: State, j: JobId): Ledger {
    if j in s.ledgers then s.ledgers[j] else NoHistory
  }

  function RowOf(s: State, j: JobId): Option<Row> {
    if j in s.rows then Some(s.rows[j]) else None
  }

  datatype Label =
    | Submit(job: JobId, user: UserId, template: string, payload: Payload)
    | Api(job: JobId, out: Outcome, id: CopyId)
    | ApiDie(job: JobId)
    | Inject(id: CopyId, bytes: string)          // a body that does not parse reaches the queue
    | Expire(id: CopyId)                         // TTL elapsed: dead-lettered to the main queue
    | Redeliver(id: CopyId, id': CopyId)         // the channel of an unacknowledged delivery is gone
    | Deliver(w: WorkerId, id: CopyId)
    | Work(w: WorkerId, out: Outcome, id: CopyId)
    | Crash(w: WorkerId)
    | Tick(ms: nat)

  /** An identity that no message and no worker uses. */
  predicate Fresh(s: State, id: CopyId) {
    id !in s.copies && forall w | w in s.workers :: s.workers[w].tag != id
  }

  /** RabbitMQ expires messages at the head of a queue only. */
  predicate HeadOfQueue(s: State, id: CopyId)
    requires id in s.copies
  {
    forall o | o in s.copies && s.copies[o].place == s.copies[id].place :: s.copies[id].since <= s.copies[o].since
  }

  predicate Enabled(s: State, l: Label) {
    match l
    case Submit(j, _, _, _) => j !in s.calls
    case Api(j, _, id) => j in s.calls && s.calls[j].Open() && Fresh(s, id)
    case ApiDie(j) => j in s.calls && s.calls[j].Open()
    case Inject(id, _) => Fresh(s, id)
    case Expire(id) =>
      && id in s.copies
      && s.copies[id].place.Retry?
      && s.clock >= s.copies[id].since + Ttl(s.copies[id].place.level)
      && HeadOfQueue(s, id)
    case Redeliver(id, id') => id in s.copies && s.copies[id].place.Unacked? && Fresh(s, id')
    case Deliver(w, id) => w !in s.workers && id in s.copies && s.copies[id].place.Main?
    case Work(w, _, id) => w in s.workers && Fresh(s, id)
    case Crash(w) => w in s.workers
    case Tick(_) => true
  }

  function Begin(id: CopyId, b: Body): Worker {
    match b
    case Malformed(bytes) => Rejecting(id, bytes)
    case Parsed(m) => Working(id, m, SetProcessing)
  }

  function FirstMessage(cfg: Config, j: JobId, c: Call): JobMessage {
    JobMessage(j, c.user, c.template, c.payload, 0, cfg.apiMaxRetries)
  }

  /** What one move of the API does to its call, the row, the broker and the history of its job. */
  datatype CallEffect = CallEffect(pc: CallPc, row: Option<Row>, put: Option<Copy>, ledger: Ledger)

  function CallAct(cfg: Config, j: JobId, c: Call, row: Option<Row>, led: Ledger, out: Outcome, now: nat): CallEffect
    requires c.Open()
  {
    match c.pc
    case Inserting =>
      if out.Ok? && row.None?
      then CallEffect(Publishing, Some(NewRow(c.user, c.template, c.payload, cfg.apiMaxRetries)), None, led)
      else CallEffect(Refused, None, None, led)
    case Publishing =>
      (match out
       case Ok => CallEffect(Accepted, None, Some(Copy(Parsed(FirstMessage(cfg, j, c)), Main, now)), led.(published := Some(now)))
       case Err => CallEffect(Compensating, None, None, led.(dropped := led.dropped + 1))
       case BadJson => CallEffect(Abandoned, None, None, led.(dropped := led.dropped + 1)))
    case Compensating =>
      CallEffect(Refused, if out.Ok? && row.Some? then Some(WithStatus(row.value, Failed, None, Some(NotQueued), now)) else None, None, led)
  }

  /** The process that serves the call dies. */
  function DieAct(c: Call, led: Ledger): CallEffect {
    CallEffect(Abandoned, None, None, if c.pc.Publishing? then led.(lost := led.lost + 1) else led)
  }

  function CallPatch(s: State, j: JobId, e: CallEffect, id: CopyId): State
    requires j in s.calls
  {
    s.(calls := s.calls[j := s.calls[j].(pc := e.pc)],
       rows := if e.row.Some? then s.rows[j := e.row.value] else s.rows,
       copies := if e.put.Some? then s.copies[id := e.put.value] else s.copies,
       ledgers := s.ledgers[j := e.ledger])
  }

  function CallStep(cfg: Config, s: State, j: JobId, out: Outcome, id: CopyId): State
    requires j in s.calls && s.calls[j].Open()
  {
    CallPatch(s, j, CallAct(cfg, j, s.calls[j], RowOf(s, j), LedgerOf(s, j), out, s.clock), id)
  }

  /** The system after a worker's call had the effect `e`; `id` names the message it may have published. */
  function Patch(s: State, w: WorkerId, e: Effect, id: CopyId): State
    requires w in s.workers && s.workers[w].Working?
  {
    var k := s.workers[w];
    var kept := if e.ack then s.copies - {k.tag} else s.copies;
    s.(rows := if e.row.Some? then s.rows[k.msg.jobId := e.row.value] else s.rows,
       copies := if e.put.Some? then kept[id := e.put.value] else kept,
       workers := if e.next.Some? then s.workers[w := e.next.value] else s.workers - {w},
       events := if e.event.Some? then s.events + [e.event.value] else s.events,
       files := if e.file.Some? then s.files + {e.file.value} else s.files,
       ledgers := s.ledgers[k.msg.jobId := e.ledger])
  }

  function EffectOf(cfg: Config, s: State, w: WorkerId, out: Outcome): Effect
    requires w in s.workers && s.workers[w].Working?
  {
    var k := s.workers[w];
    Act(cfg, k, RowOf(s, k.msg.jobId), k.tag in s.copies, LedgerOf(s, k.msg.jobId), out, s.clock)
  }

  /** `Nack` without requeue: the dead-letter exchange of the main queue takes the message to the DLQ. */
  function RejectStep(s: State, w: WorkerId, out: Outcome): State
    requires w in s.workers && s.workers[w].Rejecting?
  {
    var k := s.workers[w];
    s.(copies := if out.Ok? && k.tag in s.copies
                 then s.copies[k.tag := s.copies[k.tag].(place := Dlq, since := s.clock)] else s.copies,
       workers := s.workers - {w})
  }

  function CrashStep(s: State, w: WorkerId): State
    requires w in s.workers
  {
    var k := s.workers[w];
    s.(workers := s.workers - {w},
       ledgers := if k.Working? && k.pc.Holding()
                  then s.ledgers[k.msg.jobId := LedgerOf(s, k.msg.jobId).(lost := LedgerOf(s, k.msg.jobId).lost + 1)]
                  else s.ledgers)
  }

  function Apply(cfg: Config, s: State, l: Label): State {
    if !Enabled(s, l) then s else
    match l
    case Submit(j, user, template, payload) =>
      s.(calls := s.calls[j := Call(user, template, payload, Inserting)])
    case Api(j, out, id) => CallStep(cfg, s, j, out, id)
    case ApiDie(j) => CallPatch(s, j, DieAct(s.calls[j], LedgerOf(s, j)), 0)
    case Inject(id, bytes) => s.(copies := s.copies[id := Copy(Malformed(bytes), Main, s.clock)])
    case Expire(id) => s.(copies := s.copies[id := s.copies[id].(place := Main, since := s.clock)])
    case Redeliver(id, id') => s.(copies := (s.copies - {id})[id' := s.copies[id].(place := Main, since := s.clock)])
    case Deliver(w, id) =>
      s.(copies := s.copies[id := s.copies[id].(place := Unacked)],
         workers := s.workers[w := Begin(id, s.copies[id].body)])
    case Work(w, out, id) =>
      if s.workers[w].Working? then Patch(s, w, EffectOf(cfg, s, w, out), id) else RejectStep(s, w, out)
    case Crash(w) => CrashStep(s, w)
    case Tick(ms) => s.(clock := s.clock + ms)
  }

  // ---------------------------------------------------------------- faults

  /** When an unacknowledged delivery may return to the queue. */
  datatype Redelivery = Never | HolderStopped | Anytime

  /** Whether file writes are free, or follow an oracle per job and attempt. */
  datatype Disk = AnyWrite | Oracle(writes: (JobId, int) -> bool)

  /** Which outside calls may fail, and what else may go wrong. */
  datatype Faults = Faults(
    insert: bool,
    status: bool,
    increment: bool,
    publish: bool,
    encode: bool,
    event: bool,
    ack: bool,
    die: bool,
    crash: bool,
    redelivery: Redelivery,
    disk: Disk)

  const AnyFault := Faults(true, true, true, true, true, true, true, true, true, Anytime, AnyWrite)

  predicate PublishMayFail(f: Faults, out: Outcome) {
    match out
    case Ok => true
    case Err => f.publish
    case BadJson => f.encode
  }

  predicate MayFail(f: Faults, m: JobMessage, op: Op, out: Outcome) {
    match op
    case WriteStatus(_, _, _) => out.Ok? || f.status
    case IncrementRetry => out.Ok? || f.increment
    case Emit(_) => out.Ok? || f.event
    case Render => f.disk.AnyWrite? || out.Ok? == f.disk.writes(m.jobId, m.retryCount)
    case Ack => out.Ok? || f.ack
    case PublishRetry(_) => PublishMayFail(f, out)
    case PublishDead => PublishMayFail(f, out)
  }

  predicate Allowed(f: Faults, s: State, l: Label) {
    Enabled(s, l) ==>
    match l
    case Api(j, out, _) =>
      (match s.calls[j].pc
       case Inserting => out.Ok? || f.insert
       case Compensating => out.Ok? || f.status
       case _ => PublishMayFail(f, out))
    case ApiDie(_) => f.die
    case Redeliver(id, _) =>
      (match f.redelivery
       case Never => false
       case HolderStopped => forall w | w in s.workers && s.workers[w].tag == id :: s.workers[w].Working? && !s.workers[w].pc.BeforeAck()
       case Anytime => true)
    case Work(w, out, _) =>
      var k := s.workers[w];
      if k.Working? then MayFail(f, k.msg, Request(k.msg, k.pc), out) else out.Ok? || f.ack
    case Crash(_) => f.crash
    case _ => true
  }

  // ---------------------------------------------------------------- runs

  function Exec(cfg: Config, ls: seq<Label>): State {
    if ls == [] then Init else Apply(cfg, Exec(cfg, ls[..|ls| - 1]), ls[|ls| - 1])
  }

  /** `ls` is a run of the system in which nothing goes wrong beyond `f`. */
  predicate Run(cfg: Config, f: Faults, ls: seq<Label>) {
    ls != [] ==>
      var before := Exec(cfg, ls[..|ls| - 1]);
      var l := ls[|ls| - 1];
      Run(cfg, f, ls[..|ls| - 1]) && Enabled(before, l) && Allowed(f, before, l)
  }

  /** `s` is a state that such a run reaches. */
  ghost predicate Reachable(cfg: Config, f: Faults, s: State) {
    exists ls :: Run(cfg, f, ls) && Exec(cfg, ls) == s
  }

  lemma RunSnoc(cfg: Config, f: Faults, ls: seq<Label>, l: Label)
    ensures Exec(cfg, ls + [l]) == Apply(cfg, Exec(cfg, ls), l)
    ensures Run(cfg, f, ls + [l]) <==> Run(cfg, f, ls) && Enabled(Exec(cfg, ls), l) && Allowed(f, Exec(cfg, ls), l)
  {
    assert (ls + [l])[..|ls|] == ls;
  }

  lemma {:induction false} RunPrefix(cfg: Config, f: Faults, ls: seq<Label>, n: nat)
    requires Run(cfg, f, ls) && n <= |ls|
    ensures Run(cfg, f, ls[..n])
  {
    if n < |ls| {
      RunPrefix(cfg, f, ls[..|ls| - 1], n);
      assert ls[..|ls| - 1][..n] == ls[..n];
    } else {
      assert ls[..n] == ls;
    }
  }
}
