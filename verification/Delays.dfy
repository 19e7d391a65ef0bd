/** How long a retried message stays away; in every run, whatever fails. */
module Delays {
  import opened Domain
  import opened Pipeline
  import opened Decomposition
  import opened RetryLevels

  /** The waits of levels 1 to `n` together: 1, 6 and 16 seconds. */
  function Waited(n: int): nat {
    if n <= 0 then 0 else if n <= 3 then Waited(n - 1) + Ttl(n) else Waited(3)
  }

  lemma WaitedIs(n: int)
    requires 0 <= n <= 3
    ensures Waited(n) == [0, 1000, 6000, 16000][n]
  {
    assert Waited(0) == 0 && Waited(1) == 1000 && Waited(2) == 6000;
  }

  /** When the API put the job into the main queue. */
  function Published(s: State, j: JobId): nat {
    if LedgerOf(s, j).published.Some? then LedgerOf(s, j).published.value else 0
  }

  predicate CopyDelayed(s: State, c: Copy) {
    c.body.Parsed? ==>
      var m := c.body.msg;
      && LedgerOf(s, m.jobId).published.Some?
      && c.since >= Published(s, m.jobId) + Waited(if c.place.Retry? then m.retryCount - 1 else m.retryCount)
  }

  predicate WorkerDelayed(s: State, k: Worker) {
    k.Working? ==>
      && LedgerOf(s, k.msg.jobId).published.Some?
      && s.clock >= Published(s, k.msg.jobId) + Waited(if k.pc.RetryPublish? || k.pc.MarkDropped? then k.msg.retryCount - 1 else k.msg.retryCount)
  }

  ghost predicate Delayed(s: State) {
    && (forall j :: LedgerOf(s, j).published.Some? ==> j in s.calls && s.calls[j].pc.Accepted?)
    && (forall id | id in s.copies :: CopyDelayed(s, s.copies[id]) && s.copies[id].since <= s.clock)
    && (forall w | w in s.workers :: WorkerDelayed(s, s.workers[w]))
  }

  lemma ActDelayed(cfg: Config, s: State, w: WorkerId, out: Outcome)
    requires w in s.workers && s.workers[w].Working? && WorkerDelayed(s, s.workers[w])
    ensures var e, k := EffectOf(cfg, s, w, out), s.workers[w];
            && e.ledger.published == LedgerOf(s, k.msg.jobId).published
            && (e.next.Some? ==> e.next.value.Working? && e.next.value.msg.jobId == k.msg.jobId && WorkerDelayed(s, e.next.value))
            && (e.put.Some? ==> CopyDelayed(s, e.put.value) && e.put.value.since == s.clock)
  {
  }

  lemma PatchDelayed(s: State, w: WorkerId, e: Effect, id: CopyId)
    requires Delayed(s) && w in s.workers && s.workers[w].Working?
    requires e.ledger.published == LedgerOf(s, s.workers[w].msg.jobId).published
    requires e.next.Some? ==> WorkerDelayed(s, e.next.value)
    requires e.put.Some? ==> CopyDelayed(s, e.put.value) && e.put.value.since == s.clock
    ensures Delayed(Patch(s, w, e, id))
  {
    var t := Patch(s, w, e, id);
    assert forall j :: LedgerOf(t, j).published == LedgerOf(s, j).published;
    forall i | i in t.copies ensures CopyDelayed(t, t.copies[i]) && t.copies[i].since <= t.clock {
      if i in s.copies && t.copies[i] == s.copies[i] { assert CopyDelayed(s, s.copies[i]); }
    }
    forall v | v in t.workers ensures WorkerDelayed(t, t.workers[v]) {
      if v != w { assert WorkerDelayed(s, s.workers[v]); }
    }
  }

  /** A move of the API that publishes nothing. */
  lemma CallQuiet(s: State, t: State, j: JobId)
    requires Delayed(s) && j in s.calls && LedgerOf(s, j).published.None?
    requires t.copies == s.copies && t.workers == s.workers && t.clock == s.clock
    requires forall i :: LedgerOf(t, i).published == LedgerOf(s, i).published
    requires forall i | i in s.calls && i != j :: i in t.calls && t.calls[i] == s.calls[i]
    ensures Delayed(t)
  {
    forall i | i in t.copies ensures CopyDelayed(t, t.copies[i]) && t.copies[i].since <= t.clock {
      assert CopyDelayed(s, s.copies[i]);
    }
    forall v | v in t.workers ensures WorkerDelayed(t, t.workers[v]) {
      assert WorkerDelayed(s, s.workers[v]);
    }
  }

  /** The API publishes a job once, before any of its messages exists. */
  lemma CallPublishes(s: State, t: State, j: JobId, id: CopyId, c: Copy)
    requires Delayed(s) && j in s.calls && LedgerOf(s, j).published.None? && id !in s.copies
    requires About(c.body, j) && c.place.Main? && c.body.msg.retryCount == 0 && c.since == s.clock
    requires t.copies == s.copies[id := c] && t.workers == s.workers && t.clock == s.clock
    requires LedgerOf(t, j).published == Some(s.clock) && j in t.calls && t.calls[j].pc.Accepted?
    requires forall i | i != j :: LedgerOf(t, i) == LedgerOf(s, i)
    requires forall i | i in s.calls && i != j :: i in t.calls && t.calls[i] == s.calls[i]
    ensures Delayed(t)
  {
    forall i | i in t.copies ensures CopyDelayed(t, t.copies[i]) && t.copies[i].since <= t.clock {
      if i != id { assert CopyDelayed(s, s.copies[i]); }
    }
    forall v | v in t.workers ensures WorkerDelayed(t, t.workers[v]) {
      assert WorkerDelayed(s, s.workers[v]);
    }
  }

  lemma CallDelayed(cfg: Config, s: State, j: JobId, out: Outcome, id: CopyId)
    requires Delayed(s) && j in s.calls && s.calls[j].Open() && id !in s.copies
    ensures Delayed(CallStep(cfg, s, j, out, id))
  {
    var t := CallStep(cfg, s, j, out, id);
    assert LedgerOf(s, j).published.None?;
    if s.calls[j].pc.Publishing? && out.Ok? {
      CallPublishes(s, t, j, id, Copy(Parsed(FirstMessage(cfg, j, s.calls[j])), Main, s.clock));
    } else {
      CallQuiet(s, t, j);
    }
  }

  /** Only the API's publish sets the time from which the delays count. */
  lemma MoveKeepsFirsts(cfg: Config, s: State, l: Label)
    requires Enabled(s, l) && !l.Work? && !l.Api?
    ensures forall j :: LedgerOf(Apply(cfg, s, l), j).published == LedgerOf(s, j).published
  {
  }

  lemma MoveDelayed(cfg: Config, s: State, l: Label)
    requires Delayed(s) && Levels(cfg, s) && Enabled(s, l) && !l.Work? && !l.Api?
    ensures Delayed(Apply(cfg, s, l))
  {
    MoveCopies(cfg, s, l);
    MoveWorkers(cfg, s, l);
    MoveKeepsFirsts(cfg, s, l);
  }

  lemma MoveCopies(cfg: Config, s: State, l: Label)
    requires Delayed(s) && Levels(cfg, s) && Enabled(s, l) && !l.Work? && !l.Api?
    ensures var t := Apply(cfg, s, l); forall i | i in t.copies :: CopyDelayed(t, t.copies[i]) && t.copies[i].since <= t.clock
  {
    var t := Apply(cfg, s, l);
    MoveKeepsFirsts(cfg, s, l);
    if l.Expire? {
      assert CopyLevel(cfg, s.copies[l.id]);
    }
    forall i | i in t.copies ensures CopyDelayed(t, t.copies[i]) && t.copies[i].since <= t.clock {
      if i in s.copies { assert CopyDelayed(s, s.copies[i]); }
      if l.Redeliver? { assert CopyDelayed(s, s.copies[l.id]); }
    }
  }

  lemma MoveWorkers(cfg: Config, s: State, l: Label)
    requires Delayed(s) && Enabled(s, l) && !l.Work? && !l.Api?
    ensures var t := Apply(cfg, s, l); forall v | v in t.workers :: WorkerDelayed(t, t.workers[v])
  {
    var t := Apply(cfg, s, l);
    MoveKeepsFirsts(cfg, s, l);
    forall v | v in t.workers ensures WorkerDelayed(t, t.workers[v]) {
      if v in s.workers { assert WorkerDelayed(s, s.workers[v]); }
      if l.Deliver? && v == l.w { assert CopyDelayed(s, s.copies[l.id]); }
    }
  }

  lemma DelayedStep(cfg: Config, s: State, l: Label)
    requires Delayed(s) && Levels(cfg, s) && TagsOk(s) && Enabled(s, l)
    ensures Delayed(Apply(cfg, s, l))
  {
    if l.Work? {
      WorkDelayed(cfg, s, l.w, l.out, l.id);
    } else if l.Api? {
      CallDelayed(cfg, s, l.job, l.out, l.id);
    } else {
      MoveDelayed(cfg, s, l);
    }
  }

  lemma WorkDelayed(cfg: Config, s: State, w: WorkerId, out: Outcome, id: CopyId)
    requires Delayed(s) && TagsOk(s) && Enabled(s, Work(w, out, id))
    ensures Delayed(Apply(cfg, s, Work(w, out, id)))
  {
    if s.workers[w].Working? {
      ActDelayed(cfg, s, w, out);
      PatchDelayed(s, w, EffectOf(cfg, s, w, out), id);
    } else {
      RejectDelayed(cfg, s, w, out, id);
    }
  }

  lemma RejectDelayed(cfg: Config, s: State, w: WorkerId, out: Outcome, id: CopyId)
    requires Delayed(s) && TagsOk(s) && Enabled(s, Work(w, out, id)) && s.workers[w].Rejecting?
    ensures Delayed(Apply(cfg, s, Work(w, out, id)))
  {
    var t := Apply(cfg, s, Work(w, out, id));
    forall i | i in t.copies ensures CopyDelayed(t, t.copies[i]) && t.copies[i].since <= t.clock {
      assert CopyDelayed(s, s.copies[i]);
    }
    forall v | v in t.workers ensures WorkerDelayed(t, t.workers[v]) {
      assert WorkerDelayed(s, s.workers[v]);
    }
  }

  lemma {:induction false} DelayedAlways(cfg: Config, ls: seq<Label>)
    requires Run(cfg, AnyFault, ls)
    ensures Delayed(Exec(cfg, ls))
  {
    if ls != [] {
      var before := ls[..|ls| - 1];
      DelayedAlways(cfg, before);
      RetryLevelsAlways(cfg, before);
      TagsAlways(cfg, AnyFault, before);
      DelayedStep(cfg, Exec(cfg, before), ls[|ls| - 1]);
    }
  }

  /**
    A message in the main queue that has been retried `n` times got there no sooner than 0, 1, 6 or 16 seconds after
    the job was first published; with three retries, none reaches the dead-letter queue before 16 seconds.
  */
  lemma RetryDelay(cfg: Config, ls: seq<Label>, id: CopyId)
    requires Run(cfg, AnyFault, ls)
    requires id in Exec(cfg, ls).copies && Exec(cfg, ls).copies[id].body.Parsed?
    ensures var s := Exec(cfg, ls);
            var c, start := s.copies[id], Published(s, s.copies[id].body.msg.jobId);
            && LedgerOf(s, c.body.msg.jobId).published.Some?
            && (c.place.Main? ==> 0 <= c.body.msg.retryCount <= 3 && c.since >= start + [0, 1000, 6000, 16000][c.body.msg.retryCount])
            && (c.place.Dlq? && cfg.maxRetries == 3 ==> c.since >= start + 16000)
  {
    DelayedAlways(cfg, ls);
    RetryLevelsAlways(cfg, ls);
    var s := Exec(cfg, ls);
    assert CopyLevel(cfg, s.copies[id]);
    assert CopyDelayed(s, s.copies[id]);
    forall n | 0 <= n <= 3 ensures Waited(n) == [0, 1000, 6000, 16000][n] {
      WaitedIs(n);
    }
  }

  lemma OldestInPlace(s: State, ids: set<CopyId>, id: CopyId) returns (head: CopyId)
    requires id in ids && forall i | i in ids :: i in s.copies
    ensures head in ids && forall i | i in ids :: s.copies[head].since <= s.copies[i].since
    decreases ids
  {
    if ids == {id} {
      head := id;
    } else {
      assert ids - {id} != {} by { assert ids == (ids - {id}) + {id}; }
      var o :| o in ids - {id};
      head := OldestInPlace(s, ids - {id}, o);
      if s.copies[id].since < s.copies[head].since { head := id; }
    }
  }

  /**
    Each retry queue empties in arrival order without making an expired message wait for an unexpired one: as soon
    as any message of the queue has waited out its TTL, so has the oldest, and that one can leave.
  */
  lemma HeadExpiresFirst(s: State, id: CopyId) returns (head: CopyId)
    requires id in s.copies && s.copies[id].place.Retry?
    requires s.clock >= s.copies[id].since + Ttl(s.copies[id].place.level)
    ensures Enabled(s, Expire(head)) && s.copies[head].place == s.copies[id].place
    ensures s.copies[head].since <= s.copies[id].since
  {
    var ids := set i | i in s.copies && s.copies[i].place == s.copies[id].place;
    head := OldestInPlace(s, ids, id);
    assert HeadOfQueue(s, head);
  }
}
