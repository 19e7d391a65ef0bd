/** Runs of a single job with a single worker, for any configuration: what the exactness results are shown on. */
module Lone {
  import opened Domain
  import opened Pipeline
  import opened RetryLevels

  lemma ReachOn(cfg: Config, f: Faults, s: State, l: Label) returns (t: State)
    requires Reachable(cfg, f, s) && Enabled(s, l) && Allowed(f, s, l)
    ensures Reachable(cfg, f, t) && t == Apply(cfg, s, l)
  {
    var ls :| Run(cfg, f, ls) && Exec(cfg, ls) == s;
    RunSnoc(cfg, f, ls, l);
    t := Exec(cfg, ls + [l]);
  }

  /** A worker makes its next call. */
  lemma WorkOn(cfg: Config, f: Faults, s: State, w: WorkerId, out: Outcome, id: CopyId) returns (t: State)
    requires Reachable(cfg, f, s) && w in s.workers && s.workers[w].Working? && Fresh(s, id)
    requires MayFail(f, s.workers[w].msg, Request(s.workers[w].msg, s.workers[w].pc), out)
    ensures Reachable(cfg, f, t) && t == Patch(s, w, EffectOf(cfg, s, w, out), id)
  {
    t := ReachOn(cfg, f, s, Work(w, out, id));
  }

  lemma DeliverOn(cfg: Config, f: Faults, s: State, w: WorkerId, id: CopyId) returns (t: State)
    requires Reachable(cfg, f, s) && w !in s.workers && id in s.copies && s.copies[id].place.Main?
    ensures Reachable(cfg, f, t)
    ensures t == s.(copies := s.copies[id := s.copies[id].(place := Unacked)], workers := s.workers[w := Begin(id, s.copies[id].body)])
  {
    t := ReachOn(cfg, f, s, Deliver(w, id));
  }

  /** What an acknowledgement after a failed attempt does that takes effect. */
  lemma AckEffect(cfg: Config, s: State, w: WorkerId)
    requires w in s.workers && s.workers[w].Working? && s.workers[w].pc.AckFailed?
    ensures var e, k := EffectOf(cfg, s, w, Ok), s.workers[w];
            e.row.None? && e.ack && e.put.None? && e.next == Some(k.(pc := Incrementing(k.pc.cause)))
  {
  }

  /** What one does that fails. */
  lemma UnackedEffect(cfg: Config, s: State, w: WorkerId)
    requires w in s.workers && s.workers[w].Working? && s.workers[w].pc.AckFailed?
    ensures var e, k := EffectOf(cfg, s, w, Err), s.workers[w];
            e.row.None? && !e.ack && e.put.None? && e.next == Some(k.(pc := Incrementing(k.pc.cause)))
  {
  }

  /** What a publish does that takes effect, and a refused one. */
  lemma PublishEffect(cfg: Config, s: State, w: WorkerId)
    requires w in s.workers && s.workers[w].Working? && (s.workers[w].pc.RetryPublish? || s.workers[w].pc.DlqPublish?)
    ensures var e, k := EffectOf(cfg, s, w, Ok), s.workers[w];
            && e.row.None? && !e.ack
            && (k.pc.DlqPublish? ==> e.put == Some(Copy(Parsed(k.msg), Dlq, s.clock)) && e.next.None?)
            && (k.pc.RetryPublish? && 1 <= k.msg.retryCount <= 3 ==>
                  e.put == Some(Copy(Parsed(k.msg), Retry(k.msg.retryCount), s.clock)) && e.next.None?)
            && (k.pc.RetryPublish? && !(1 <= k.msg.retryCount <= 3) ==>
                  e.put.None? && e.next == Some(k.(pc := MarkDropped(RetryNotPublished(k.msg.retryCount)))))
  {
  }

  /** What a last mark on the row does that fails. */
  lemma UnmarkedEffect(cfg: Config, s: State, w: WorkerId)
    requires w in s.workers && s.workers[w].Working? && s.workers[w].pc.MarkDropped?
    ensures var e := EffectOf(cfg, s, w, Err); e.row.None? && !e.ack && e.put.None? && e.next.None?
  {
  }

  function Message(cfg: Config, j: JobId, p: Payload, n: int): JobMessage {
    JobMessage(j, "u", "t", p, n, cfg.apiMaxRetries)
  }

  predicate OnlyJob(s: State, j: JobId, p: Payload, status: Status) {
    s.calls == map[j := Call("u", "t", p, Accepted)] && j in s.rows && s.rows[j].status == status
  }

  /** The only message of the job lies at `place`, and nobody works. */
  predicate Waiting(cfg: Config, s: State, j: JobId, p: Payload, n: int, id: CopyId, place: Place, status: Status) {
    && OnlyJob(s, j, p, status) && s.workers == map[]
    && s.copies.Keys == {id} && s.copies[id].body == Parsed(Message(cfg, j, p, n)) && s.copies[id].place == place
    && s.copies[id].since <= s.clock
  }

  /** Worker 1 serves the job, and has its message until it acknowledges. */
  predicate Serving(cfg: Config, s: State, j: JobId, p: Payload, n: int, tag: CopyId, pc: Pc, status: Status) {
    && OnlyJob(s, j, p, status)
    && s.workers == map[1 := Working(tag, Message(cfg, j, p, n), pc)]
    && (if pc.BeforeAck() then s.copies.Keys == {tag} && s.copies[tag].body == Parsed(Message(cfg, j, p, n)) && s.copies[tag].place.Unacked?
        else s.copies == map[])
  }

  lemma Begun(cfg: Config, f: Faults, j: JobId, p: Payload) returns (s: State)
    ensures Reachable(cfg, f, s) && Serving(cfg, s, j, p, 0, 0, SetProcessing, Pending)
  {
    s := Queued(cfg, f, j, p);
    s := Delivered(cfg, f, s, j, p, 0, 0, Pending);
  }

  lemma Queued(cfg: Config, f: Faults, j: JobId, p: Payload) returns (s: State)
    ensures Reachable(cfg, f, s) && Waiting(cfg, s, j, p, 0, 0, Main, Pending)
  {
    s := RowWritten(cfg, f, j, p);
    s := Enqueued(cfg, f, s, j, p);
  }

  /** The API call has written the row, and not published the message. */
  lemma RowWritten(cfg: Config, f: Faults, j: JobId, p: Payload) returns (s: State)
    ensures Reachable(cfg, f, s) && s.calls == map[j := Call("u", "t", p, Publishing)] && s.copies == map[] && s.workers == map[]
    ensures j in s.rows && s.rows[j].status.Pending?
  {
    s := Exec(cfg, []);
    assert Run(cfg, f, []);
    s := ReachOn(cfg, f, s, Submit(j, "u", "t", p));
    s := ReachOn(cfg, f, s, Api(j, Ok, 0));
  }

  lemma Enqueued(cfg: Config, f: Faults, s: State, j: JobId, p: Payload) returns (t: State)
    requires Reachable(cfg, f, s) && s.calls == map[j := Call("u", "t", p, Publishing)] && s.copies == map[] && s.workers == map[]
    requires j in s.rows && s.rows[j].status.Pending?
    ensures Reachable(cfg, f, t) && Waiting(cfg, t, j, p, 0, 0, Main, Pending)
  {
    t := ReachOn(cfg, f, s, Api(j, Ok, 0));
  }

  lemma Delivered(cfg: Config, f: Faults, s: State, j: JobId, p: Payload, n: int, id: CopyId, status: Status) returns (t: State)
    requires Reachable(cfg, f, s) && Waiting(cfg, s, j, p, n, id, Main, status)
    ensures Reachable(cfg, f, t) && Serving(cfg, t, j, p, n, id, SetProcessing, status)
  {
    t := DeliverOn(cfg, f, s, 1, id);
  }

  /** Where the next call takes the worker. */
  function After(cfg: Config, j: JobId, p: Payload, n: int, tag: CopyId, pc: Pc, out: Outcome): Option<Worker> {
    var m := Message(cfg, j, p, n);
    Resume(cfg, Working(tag, m, pc), Succeeds(Request(m, pc), true, out), out)
  }

  function StatusAfter(cfg: Config, j: JobId, p: Payload, n: int, pc: Pc, out: Outcome, status: Status): Status {
    var op := Request(Message(cfg, j, p, n), pc);
    if op.WriteStatus? && out.Ok? then op.status else status
  }

  /** A call that neither acknowledges nor publishes. */
  predicate Inner(pc: Pc) { !pc.AckDone? && !pc.AckFailed? && !pc.RetryPublish? && !pc.DlqPublish? }

  lemma WriteState(cfg: Config, s: State, j: JobId, p: Payload, n: int, tag: CopyId, pc: Pc, out: Outcome, status: Status)
    requires Serving(cfg, s, j, p, n, tag, pc, status) && (pc.SetProcessing? || pc.SetCompleted?)
    ensures var next := After(cfg, j, p, n, tag, pc, out);
            next.Some? ==>
              Serving(cfg, Patch(s, 1, EffectOf(cfg, s, 1, out), tag + 1), j, p, next.value.msg.retryCount, tag, next.value.pc,
                      StatusAfter(cfg, j, p, n, pc, out, status))
  {
  }

  lemma FailState(cfg: Config, s: State, j: JobId, p: Payload, n: int, tag: CopyId, pc: Pc, out: Outcome, status: Status)
    requires Serving(cfg, s, j, p, n, tag, pc, status) && pc.SetFailed?
    ensures var next := After(cfg, j, p, n, tag, pc, out);
            next.Some? ==>
              Serving(cfg, Patch(s, 1, EffectOf(cfg, s, 1, out), tag + 1), j, p, next.value.msg.retryCount, tag, next.value.pc,
                      StatusAfter(cfg, j, p, n, pc, out, status))
  {
  }

  lemma MarkState(cfg: Config, s: State, j: JobId, p: Payload, n: int, tag: CopyId, pc: Pc, out: Outcome, status: Status)
    requires Serving(cfg, s, j, p, n, tag, pc, status) && (pc.MarkDropped? || pc.MarkExhausted?)
    ensures var next := After(cfg, j, p, n, tag, pc, out);
            next.Some? ==>
              Serving(cfg, Patch(s, 1, EffectOf(cfg, s, 1, out), tag + 1), j, p, next.value.msg.retryCount, tag, next.value.pc,
                      StatusAfter(cfg, j, p, n, pc, out, status))
  {
  }

  lemma TellState(cfg: Config, s: State, j: JobId, p: Payload, n: int, tag: CopyId, pc: Pc, out: Outcome, status: Status)
    requires Serving(cfg, s, j, p, n, tag, pc, status) && (pc.EmitProcessing? || pc.EmitFailed? || pc.EmitCompleted?)
    ensures var next := After(cfg, j, p, n, tag, pc, out);
            next.Some? ==>
              Serving(cfg, Patch(s, 1, EffectOf(cfg, s, 1, out), tag + 1), j, p, next.value.msg.retryCount, tag, next.value.pc,
                      StatusAfter(cfg, j, p, n, pc, out, status))
  {
  }

  lemma MakeState(cfg: Config, s: State, j: JobId, p: Payload, n: int, tag: CopyId, pc: Pc, out: Outcome, status: Status)
    requires Serving(cfg, s, j, p, n, tag, pc, status) && (pc.Generating? || pc.Incrementing?)
    ensures var next := After(cfg, j, p, n, tag, pc, out);
            next.Some? ==>
              Serving(cfg, Patch(s, 1, EffectOf(cfg, s, 1, out), tag + 1), j, p, next.value.msg.retryCount, tag, next.value.pc,
                      StatusAfter(cfg, j, p, n, pc, out, status))
  {
  }

  lemma InnerState(cfg: Config, s: State, j: JobId, p: Payload, n: int, tag: CopyId, pc: Pc, out: Outcome, status: Status)
    requires Serving(cfg, s, j, p, n, tag, pc, status) && Inner(pc)
    ensures var next := After(cfg, j, p, n, tag, pc, out);
            next.Some? ==>
              Serving(cfg, Patch(s, 1, EffectOf(cfg, s, 1, out), tag + 1), j, p, next.value.msg.retryCount, tag, next.value.pc,
                      StatusAfter(cfg, j, p, n, pc, out, status))
  {
    if pc.SetFailed? {
      FailState(cfg, s, j, p, n, tag, pc, out, status);
    } else if pc.SetProcessing? || pc.SetCompleted? {
      WriteState(cfg, s, j, p, n, tag, pc, out, status);
    } else if pc.MarkDropped? || pc.MarkExhausted? {
      MarkState(cfg, s, j, p, n, tag, pc, out, status);
    } else if pc.EmitProcessing? || pc.EmitFailed? || pc.EmitCompleted? {
      TellState(cfg, s, j, p, n, tag, pc, out, status);
    } else {
      MakeState(cfg, s, j, p, n, tag, pc, out, status);
    }
  }

  lemma Inside(cfg: Config, f: Faults, s: State, j: JobId, p: Payload, n: int, tag: CopyId, pc: Pc, out: Outcome, status: Status) returns (t: State)
    requires Reachable(cfg, f, s) && Serving(cfg, s, j, p, n, tag, pc, status) && Inner(pc)
    requires MayFail(f, Message(cfg, j, p, n), Request(Message(cfg, j, p, n), pc), out)
    requires After(cfg, j, p, n, tag, pc, out).Some?
    ensures Reachable(cfg, f, t)
    ensures var next := After(cfg, j, p, n, tag, pc, out).value;
            Serving(cfg, t, j, p, next.msg.retryCount, tag, next.pc, StatusAfter(cfg, j, p, n, pc, out, status))
  {
    InnerState(cfg, s, j, p, n, tag, pc, out, status);
    t := WorkOn(cfg, f, s, 1, out, tag + 1);
  }

  lemma Acknowledged(cfg: Config, f: Faults, s: State, j: JobId, p: Payload, n: int, tag: CopyId, c: Cause, status: Status) returns (t: State)
    requires Reachable(cfg, f, s) && Serving(cfg, s, j, p, n, tag, AckFailed(c), status)
    ensures Reachable(cfg, f, t) && Serving(cfg, t, j, p, n, tag, Incrementing(c), status)
  {
    AckEffect(cfg, s, 1);
    t := WorkOn(cfg, f, s, 1, Ok, tag + 1);
    AckedState(cfg, s, EffectOf(cfg, s, 1, Ok), j, p, n, tag, c, status);
  }

  lemma AckedState(cfg: Config, s: State, e: Effect, j: JobId, p: Payload, n: int, tag: CopyId, c: Cause, status: Status)
    requires Serving(cfg, s, j, p, n, tag, AckFailed(c), status)
    requires e.row.None? && e.ack && e.put.None? && e.next == Some(Working(tag, Message(cfg, j, p, n), Incrementing(c)))
    ensures Serving(cfg, Patch(s, 1, e, tag + 1), j, p, n, tag, Incrementing(c), status)
  {
    assert s.copies - {tag} == map[];
  }

  lemma Published(cfg: Config, f: Faults, s: State, j: JobId, p: Payload, n: int, tag: CopyId, status: Status) returns (t: State)
    requires Reachable(cfg, f, s) && Serving(cfg, s, j, p, n, tag, RetryPublish, status) && 1 <= n <= 3
    ensures Reachable(cfg, f, t) && Waiting(cfg, t, j, p, n, tag + 1, Retry(n), status)
  {
    PublishEffect(cfg, s, 1);
    t := WorkOn(cfg, f, s, 1, Ok, tag + 1);
  }

  lemma Expired(cfg: Config, f: Faults, s: State, j: JobId, p: Payload, n: int, id: CopyId, status: Status) returns (t: State)
    requires Reachable(cfg, f, s) && Waiting(cfg, s, j, p, n, id, Retry(n), status)
    ensures Reachable(cfg, f, t) && Waiting(cfg, t, j, p, n, id, Main, status)
  {
    t := ReachOn(cfg, f, s, Tick(10000));
    t := ExpireOn(cfg, f, t, j, p, n, id, status);
  }

  lemma ExpireOn(cfg: Config, f: Faults, s: State, j: JobId, p: Payload, n: int, id: CopyId, status: Status) returns (t: State)
    requires Reachable(cfg, f, s) && Waiting(cfg, s, j, p, n, id, Retry(n), status) && s.clock >= s.copies[id].since + 10000
    ensures Reachable(cfg, f, t) && Waiting(cfg, t, j, p, n, id, Main, status)
  {
    t := ReachOn(cfg, f, s, Expire(id));
  }

  /** The first attempt at a job whose payload does not parse, as far as the acknowledgement. */
  lemma FailedAttempt(cfg: Config, f: Faults, s: State, j: JobId, status: Status) returns (t: State)
    requires Reachable(cfg, f, s) && Serving(cfg, s, j, Unparseable, 0, 0, SetProcessing, status)
    ensures Reachable(cfg, f, t) && Serving(cfg, t, j, Unparseable, 0, 0, AckFailed(NotRendered(BadPayload)), Failed)
  {
    t := Started(cfg, f, s, j, Unparseable, 0, 0, status);
    t := Unrendered(cfg, f, t, j);
    t := Reported(cfg, f, t, j, Unparseable, 0, 0, BadPayload);
  }

  /** The event of a failed attempt. */
  lemma Reported(cfg: Config, f: Faults, s: State, j: JobId, p: Payload, n: int, tag: CopyId, e: GenError) returns (t: State)
    requires Reachable(cfg, f, s) && Serving(cfg, s, j, p, n, tag, EmitFailed(e), Failed)
    ensures Reachable(cfg, f, t) && Serving(cfg, t, j, p, n, tag, AckFailed(NotRendered(e)), Failed)
  {
    t := Inside(cfg, f, s, j, p, n, tag, EmitFailed(e), Ok, Failed);
  }

  /** An attempt as far as the generator. */
  lemma Started(cfg: Config, f: Faults, s: State, j: JobId, p: Payload, n: int, tag: CopyId, status: Status) returns (t: State)
    requires Reachable(cfg, f, s) && Serving(cfg, s, j, p, n, tag, SetProcessing, status)
    ensures Reachable(cfg, f, t) && Serving(cfg, t, j, p, n, tag, Generating, Processing)
  {
    t := Inside(cfg, f, s, j, p, n, tag, SetProcessing, Ok, status);
    t := Inside(cfg, f, t, j, p, n, tag, EmitProcessing, Ok, Processing);
  }

  lemma Unrendered(cfg: Config, f: Faults, s: State, j: JobId) returns (t: State)
    requires Reachable(cfg, f, s) && Serving(cfg, s, j, Unparseable, 0, 0, Generating, Processing)
    ensures Reachable(cfg, f, t) && Serving(cfg, t, j, Unparseable, 0, 0, EmitFailed(BadPayload), Failed)
  {
    var out := if f.disk.Oracle? && !f.disk.writes(j, 0) then Err else Ok;
    t := Inside(cfg, f, s, j, Unparseable, 0, 0, Generating, out, Processing);
    t := Inside(cfg, f, t, j, Unparseable, 0, 0, SetFailed(BadPayload), Ok, Processing);
  }

  /** Its acknowledgement fails. */
  lemma NotAcknowledged(cfg: Config, f: Faults, s: State, j: JobId) returns (t: State)
    requires Reachable(cfg, f, s) && Serving(cfg, s, j, Unparseable, 0, 0, AckFailed(NotRendered(BadPayload)), Failed) && f.ack
    ensures Reachable(cfg, f, t) && t.calls == s.calls && t.copies == s.copies
    ensures t.workers == map[1 := Working(0, Message(cfg, j, Unparseable, 0), Incrementing(NotRendered(BadPayload)))]
    ensures j in t.calls && t.copies.Keys == {0} && t.copies[0].place.Unacked? && About(t.copies[0].body, j)
  {
    UnackedEffect(cfg, s, 1);
    t := WorkOn(cfg, f, s, 1, Err, 1);
  }

  lemma Requeued(cfg: Config, f: Faults, s: State, j: JobId, p: Payload, n: nat, tag: CopyId, c: Cause, status: Status) returns (t: State)
    requires Reachable(cfg, f, s) && Serving(cfg, s, j, p, n, tag, Incrementing(c), status) && n < LastLevel(cfg)
    ensures Reachable(cfg, f, t) && Waiting(cfg, t, j, p, n + 1, tag + 1, Retry(n + 1), status)
  {
    t := Counted(cfg, f, s, j, p, n, tag, c, status);
    t := Published(cfg, f, t, j, p, n + 1, tag, status);
  }

  lemma Counted(cfg: Config, f: Faults, s: State, j: JobId, p: Payload, n: nat, tag: CopyId, c: Cause, status: Status) returns (t: State)
    requires Reachable(cfg, f, s) && Serving(cfg, s, j, p, n, tag, Incrementing(c), status) && n < cfg.maxRetries
    ensures Reachable(cfg, f, t) && Serving(cfg, t, j, p, n + 1, tag, RetryPublish, status)
  {
    t := Inside(cfg, f, s, j, p, n, tag, Incrementing(c), Ok, status);
  }

  lemma Reopened(cfg: Config, f: Faults, s: State, j: JobId, p: Payload, n: int, id: CopyId, status: Status) returns (t: State)
    requires Reachable(cfg, f, s) && Waiting(cfg, s, j, p, n, id, Retry(n), status)
    ensures Reachable(cfg, f, t) && Serving(cfg, t, j, p, n, id, SetProcessing, status)
  {
    t := Expired(cfg, f, s, j, p, n, id, status);
    t := Delivered(cfg, f, t, j, p, n, id, status);
  }

  /** From a failed attempt to the start of the next one. */
  lemma NextAttempt(cfg: Config, f: Faults, s: State, j: JobId, p: Payload, n: nat, tag: CopyId, c: Cause, status: Status) returns (t: State)
    requires Reachable(cfg, f, s) && Serving(cfg, s, j, p, n, tag, AckFailed(c), status) && n < LastLevel(cfg)
    ensures Reachable(cfg, f, t) && Serving(cfg, t, j, p, n + 1, tag + 1, SetProcessing, status)
  {
    t := Acknowledged(cfg, f, s, j, p, n, tag, c, status);
    t := Requeued(cfg, f, t, j, p, n, tag, c, status);
    t := Reopened(cfg, f, t, j, p, n + 1, tag + 1, status);
  }
}
