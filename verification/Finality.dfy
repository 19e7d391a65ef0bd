/** When a completed job stays completed: the exact faults under which it does, for each configuration. */
module Finality {
  import opened Domain
  import opened Generator
  import opened Pipeline
  import opened RetryLevels
  import opened Conservation
  import opened JobHistory
  import opened Progress
  import opened Lone

  /** `t` is reached in a run that has passed through `s`. */
  ghost predicate Leads(cfg: Config, f: Faults, s: State, t: State) {
    exists early, ls :: Run(cfg, f, ls) && early <= ls && Exec(cfg, early) == s && Exec(cfg, ls) == t
  }

  /** No run takes a completed job back. */
  ghost predicate CompletedStays(cfg: Config, f: Faults) {
    forall s: State, t: State, j: JobId :: Leads(cfg, f, s, t) && IsCompleted(s, j) ==> IsCompleted(t, j)
  }

  predicate IsCompleted(s: State, j: JobId) {
    j in s.rows && s.rows[j].status.Completed?
  }

  /** If every delivery keeps its holder, waiting for the holder to stop means never redelivering. */
  lemma {:induction false} NeverTakenBack(cfg: Config, f: Faults, ls: seq<Label>)
    requires Run(cfg, f, ls) && f.redelivery.HolderStopped? && !f.ack && !f.crash
    ensures Run(cfg, f.(redelivery := Never), ls)
  {
    if ls != [] {
      var before, l := ls[..|ls| - 1], ls[|ls| - 1];
      NeverTakenBack(cfg, f, before);
      OrphansAlways(cfg, f, before);
      var s := Exec(cfg, before);
      assert !l.Redeliver? by { NotRedelivered(f, s, l); }
    }
  }

  lemma NotRedelivered(f: Faults, s: State, l: Label)
    requires NoOrphans(s) && Enabled(s, l) && Allowed(f, s, l) && f.redelivery.HolderStopped?
    ensures !l.Redeliver?
  {
  }

  // ---------------------------------------------------------------- a disk that takes nothing

  /** The disk refuses every write of every attempt that a job can have. */
  ghost predicate NothingCompletes(cfg: Config, f: Faults) {
    f.disk.Oracle? && forall j: JobId, n: int | 0 <= n <= LastLevel(cfg) :: !f.disk.writes(j, n)
  }

  predicate NoneCompleted(s: State) {
    && (forall j | j in s.rows :: !s.rows[j].status.Completed?)
    && (forall w | w in s.workers && s.workers[w].Working? :: !s.workers[w].pc.SetCompleted?)
  }

  lemma ActDoesNotComplete(cfg: Config, f: Faults, s: State, w: WorkerId, out: Outcome)
    requires w in s.workers && s.workers[w].Working? && !s.workers[w].pc.SetCompleted? && WorkerLevel(cfg, s.workers[w])
    requires MayFail(f, s.workers[w].msg, Request(s.workers[w].msg, s.workers[w].pc), out) && NothingCompletes(cfg, f)
    requires s.workers[w].msg.jobId in s.rows ==> !s.rows[s.workers[w].msg.jobId].status.Completed?
    ensures var e := EffectOf(cfg, s, w, out);
            && (e.row.Some? ==> !e.row.value.status.Completed?)
            && (e.next.Some? ==> e.next.value.Working? && !e.next.value.pc.SetCompleted?)
  {
  }

  lemma PatchDoesNotComplete(s: State, w: WorkerId, e: Effect, id: CopyId)
    requires NoneCompleted(s) && w in s.workers && s.workers[w].Working?
    requires e.row.Some? ==> !e.row.value.status.Completed?
    requires e.next.Some? ==> e.next.value.Working? && !e.next.value.pc.SetCompleted?
    ensures NoneCompleted(Patch(s, w, e, id))
  {
  }

  lemma NoneCompletedStep(cfg: Config, f: Faults, s: State, l: Label)
    requires NoneCompleted(s) && Levels(cfg, s) && Enabled(s, l) && Allowed(f, s, l) && NothingCompletes(cfg, f)
    ensures NoneCompleted(Apply(cfg, s, l))
  {
    if l.Work? && s.workers[l.w].Working? {
      ActDoesNotComplete(cfg, f, s, l.w, l.out);
      PatchDoesNotComplete(s, l.w, EffectOf(cfg, s, l.w, l.out), l.id);
    }
  }

  lemma {:induction false} NoneCompletedAlways(cfg: Config, f: Faults, ls: seq<Label>)
    requires Run(cfg, f, ls) && NothingCompletes(cfg, f)
    ensures NoneCompleted(Exec(cfg, ls))
  {
    if ls != [] {
      var before := ls[..|ls| - 1];
      NoneCompletedAlways(cfg, f, before);
      FaultsWeaken(cfg, f, before);
      RetryLevelsAlways(cfg, before);
      NoneCompletedStep(cfg, f, Exec(cfg, before), ls[|ls| - 1]);
    }
  }

  // ---------------------------------------------------------------- a completed job that is taken back

  const Good := Document("title", "text", [])

  function Path(cfg: Config, j: JobId): string { PathOf(cfg.outputDir, j) }

  /** The outcome of attempt `n`, as the disk of `f` will have it. */
  function Written(f: Faults, j: JobId, n: int): Outcome {
    if f.disk.Oracle? && !f.disk.writes(j, n) then Err else Ok
  }

  /** An attempt as far as its file write, which the disk takes. */
  lemma Taken(cfg: Config, f: Faults, s: State, j: JobId, n: int, tag: CopyId, status: Status) returns (t: State)
    requires Reachable(cfg, f, s) && Serving(cfg, s, j, Good, n, tag, SetProcessing, status) && Written(f, j, n).Ok?
    ensures Reachable(cfg, f, t) && Serving(cfg, t, j, Good, n, tag, EmitCompleted(Path(cfg, j)), Completed)
  {
    t := Started(cfg, f, s, j, Good, n, tag, status);
    t := Rendered(cfg, f, t, j, n, tag);
    t := Marked(cfg, f, t, j, n, tag);
  }

  lemma Marked(cfg: Config, f: Faults, s: State, j: JobId, n: int, tag: CopyId) returns (t: State)
    requires Reachable(cfg, f, s) && Serving(cfg, s, j, Good, n, tag, SetCompleted(Path(cfg, j)), Processing)
    ensures Reachable(cfg, f, t) && Serving(cfg, t, j, Good, n, tag, EmitCompleted(Path(cfg, j)), Completed)
  {
    t := Inside(cfg, f, s, j, Good, n, tag, SetCompleted(Path(cfg, j)), Ok, Processing);
  }

  lemma Rendered(cfg: Config, f: Faults, s: State, j: JobId, n: int, tag: CopyId) returns (t: State)
    requires Reachable(cfg, f, s) && Serving(cfg, s, j, Good, n, tag, Generating, Processing) && Written(f, j, n).Ok?
    ensures Reachable(cfg, f, t) && Serving(cfg, t, j, Good, n, tag, SetCompleted(Path(cfg, j)), Processing)
  {
    t := Inside(cfg, f, s, j, Good, n, tag, Generating, Ok, Processing);
  }

  /** An attempt as far as its file write, which the disk refuses. */
  lemma Refused(cfg: Config, f: Faults, s: State, j: JobId, n: int, tag: CopyId, status: Status) returns (t: State)
    requires Reachable(cfg, f, s) && Serving(cfg, s, j, Good, n, tag, SetProcessing, status) && !Written(f, j, n).Ok?
    ensures Reachable(cfg, f, t) && Serving(cfg, t, j, Good, n, tag, SetFailed(WriteFailed), Processing)
  {
    t := Started(cfg, f, s, j, Good, n, tag, status);
    t := Inside(cfg, f, t, j, Good, n, tag, Generating, Err, Processing);
  }

  /** After a refused write, on to the next attempt. */
  lemma TriedAgain(cfg: Config, f: Faults, s: State, j: JobId, n: nat, tag: CopyId, status: Status) returns (t: State, next: nat, id: CopyId)
    requires Reachable(cfg, f, s) && Serving(cfg, s, j, Good, n, tag, SetProcessing, status) && !Written(f, j, n).Ok? && n < LastLevel(cfg)
    ensures Reachable(cfg, f, t) && Serving(cfg, t, j, Good, next, id, SetProcessing, Failed) && next == n + 1
  {
    next, id := n + 1, tag + 1;
    t := Refused(cfg, f, s, j, n, tag, status);
    t := WriteReported(cfg, f, t, j, n, tag);
    t := NextAttempt(cfg, f, t, j, Good, n, tag, NotRendered(WriteFailed), Failed);
  }

  lemma WriteReported(cfg: Config, f: Faults, s: State, j: JobId, n: nat, tag: CopyId) returns (t: State)
    requires Reachable(cfg, f, s) && Serving(cfg, s, j, Good, n, tag, SetFailed(WriteFailed), Processing)
    ensures Reachable(cfg, f, t) && Serving(cfg, t, j, Good, n, tag, AckFailed(NotRendered(WriteFailed)), Failed)
  {
    t := Inside(cfg, f, s, j, Good, n, tag, SetFailed(WriteFailed), Ok, Processing);
    t := Reported(cfg, f, t, j, Good, n, tag, WriteFailed);
  }

  /** A job that completes at its first write that the disk takes, attempt `k`. */
  lemma {:induction false} CompletedRun(cfg: Config, f: Faults, s: State, j: JobId, n: nat, k: nat, tag: CopyId, status: Status)
    returns (t: State, m: nat, last: CopyId)
    requires Reachable(cfg, f, s) && Serving(cfg, s, j, Good, n, tag, SetProcessing, status)
    requires n <= k <= LastLevel(cfg) && Written(f, j, k).Ok?
    ensures Reachable(cfg, f, t) && Serving(cfg, t, j, Good, m, last, EmitCompleted(Path(cfg, j)), Completed)
    decreases k - n
  {
    if Written(f, j, n).Ok? {
      t := Taken(cfg, f, s, j, n, tag, status);
      m, last := n, tag;
    } else {
      var next, id;
      t, next, id := TriedAgain(cfg, f, s, j, n, tag, status);
      t, m, last := CompletedRun(cfg, f, t, j, next, k, id, Failed);
    }
  }

  lemma LeadsSelf(cfg: Config, f: Faults, s: State)
    requires Reachable(cfg, f, s)
    ensures Leads(cfg, f, s, s)
  {
    var ls :| Run(cfg, f, ls) && Exec(cfg, ls) == s;
    assert ls <= ls;
  }

  lemma LeadOn(cfg: Config, f: Faults, s: State, t: State, l: Label) returns (u: State)
    requires Leads(cfg, f, s, t) && Enabled(t, l) && Allowed(f, t, l)
    ensures Leads(cfg, f, s, u) && u == Apply(cfg, t, l)
  {
    var early, ls :| Run(cfg, f, ls) && early <= ls && Exec(cfg, early) == s && Exec(cfg, ls) == t;
    RunSnoc(cfg, f, ls, l);
    u := Exec(cfg, ls + [l]);
    assert early <= ls + [l];
  }

  /** A completed job whose message is still with the broker, unacknowledged; at most its first worker is about. */
  predicate Exposed(cfg: Config, s: State, j: JobId, n: int, tag: CopyId) {
    && OnlyJob(s, j, Good, Completed)
    && s.workers.Keys <= {1} && (1 in s.workers ==> s.workers[1].tag == tag)
    && s.copies.Keys == {tag} && s.copies[tag].body == Parsed(Message(cfg, j, Good, n)) && s.copies[tag].place.Unacked?
  }

  lemma Redelivered(cfg: Config, f: Faults, s: State, j: JobId, n: int, tag: CopyId) returns (t: State)
    requires Reachable(cfg, f, s) && Exposed(cfg, s, j, n, tag) && Allowed(f, s, Redeliver(tag, tag + 1))
    ensures Leads(cfg, f, s, t) && OnlyJob(t, j, Good, Completed) && t.workers == s.workers
    ensures t.copies.Keys == {tag + 1} && t.copies[tag + 1].body == Parsed(Message(cfg, j, Good, n)) && t.copies[tag + 1].place.Main?
  {
    LeadsSelf(cfg, f, s);
    t := LeadOn(cfg, f, s, s, Redeliver(tag, tag + 1));
  }

  /** Once the delivery may return to the queue, another worker starts the completed job anew. */
  lemma TakenBack(cfg: Config, f: Faults, s: State, j: JobId, n: int, tag: CopyId) returns (t: State)
    requires Reachable(cfg, f, s) && Exposed(cfg, s, j, n, tag) && Allowed(f, s, Redeliver(tag, tag + 1))
    ensures Leads(cfg, f, s, t) && !IsCompleted(t, j)
  {
    t := Redelivered(cfg, f, s, j, n, tag);
    t := TakenOver(cfg, f, s, t, j, n, tag + 1);
    t := BegunAnew(cfg, f, s, t, j, n, tag + 1);
  }

  lemma TakenOver(cfg: Config, f: Faults, s: State, t: State, j: JobId, n: int, id: CopyId) returns (u: State)
    requires Leads(cfg, f, s, t) && OnlyJob(t, j, Good, Completed) && t.workers.Keys <= {1}
    requires 1 in t.workers ==> t.workers[1].tag < id
    requires t.copies.Keys == {id} && t.copies[id].body == Parsed(Message(cfg, j, Good, n)) && t.copies[id].place.Main?
    ensures Leads(cfg, f, s, u) && j in u.rows && 2 in u.workers && u.workers[2] == Working(id, Message(cfg, j, Good, n), SetProcessing)
    ensures Fresh(u, id + 1)
  {
    u := LeadOn(cfg, f, s, t, Deliver(2, id));
  }

  lemma BegunAnew(cfg: Config, f: Faults, s: State, t: State, j: JobId, n: int, tag: CopyId) returns (u: State)
    requires Leads(cfg, f, s, t) && j in t.rows && 2 in t.workers && t.workers[2] == Working(tag, Message(cfg, j, Good, n), SetProcessing)
    requires Fresh(t, tag + 1)
    ensures Leads(cfg, f, s, u) && !IsCompleted(u, j)
  {
    u := LeadOn(cfg, f, s, t, Work(2, Ok, tag + 1));
  }

  /** A crash, or an acknowledgement without effect, leaves the message of a completed job without a worker. */
  lemma Abandoned(cfg: Config, f: Faults, s: State, j: JobId, n: int, tag: CopyId) returns (t: State)
    requires Reachable(cfg, f, s) && Serving(cfg, s, j, Good, n, tag, EmitCompleted(Path(cfg, j)), Completed)
    requires f.crash || f.ack
    ensures Reachable(cfg, f, t) && Exposed(cfg, t, j, n, tag) && t.workers == map[]
  {
    if f.crash {
      t := ReachOn(cfg, f, s, Crash(1));
    } else {
      t := Inside(cfg, f, s, j, Good, n, tag, EmitCompleted(Path(cfg, j)), Ok, Completed);
      t := Unacknowledged(cfg, f, t, j, n, tag);
    }
  }

  lemma Unacknowledged(cfg: Config, f: Faults, s: State, j: JobId, n: int, tag: CopyId) returns (t: State)
    requires Reachable(cfg, f, s) && Serving(cfg, s, j, Good, n, tag, AckDone, Completed) && f.ack
    ensures Reachable(cfg, f, t) && Exposed(cfg, t, j, n, tag) && t.workers == map[]
  {
    t := WorkOn(cfg, f, s, 1, Err, tag + 1);
  }

  /**
    Whatever the configuration: a completed job is started anew after a redelivery to another worker, or after a
    crash or a failed acknowledgement between the completed write and the end of the delivery.
  */
  lemma RedeliveryUndoes(cfg: Config, f: Faults, j: JobId, k: nat)
    requires k <= LastLevel(cfg) && Written(f, j, k).Ok?
    requires f.redelivery.Anytime? || (f.redelivery.HolderStopped? && (f.crash || f.ack))
    ensures !CompletedStays(cfg, f)
  {
    var s := Begun(cfg, f, j, Good);
    var n, tag;
    s, n, tag := CompletedRun(cfg, f, s, j, 0, k, 0, Pending);
    if !f.redelivery.Anytime? {
      s := Abandoned(cfg, f, s, j, n, tag);
    }
    var t := TakenBack(cfg, f, s, j, n, tag);
    assert Leads(cfg, f, s, t) && IsCompleted(s, j);
  }

  /** A job that the disk lets complete, unless nothing ever completes. */
  lemma SomethingCompletes(cfg: Config, f: Faults) returns (j: JobId, k: nat)
    requires !NothingCompletes(cfg, f)
    ensures k <= LastLevel(cfg) && Written(f, j, k).Ok?
  {
    j, k := "j", 0;
    if f.disk.Oracle? {
      var i: JobId, n: int :| 0 <= n <= LastLevel(cfg) && f.disk.writes(i, n);
      j, k := i, n;
    }
  }

  /**
    For each configuration, completed is final exactly when no delivery can return to the queue, that is, redelivery
    is off, or it waits for holders to stop and neither crashes nor failed acknowledgements leave a delivery without
    a holder; or when the disk takes nothing, so that no job ever completes.
  */
  lemma FinalityExact(cfg: Config, f: Faults)
    ensures CompletedStays(cfg, f) <==>
            f.redelivery.Never? || (f.redelivery.HolderStopped? && !f.crash && !f.ack) || NothingCompletes(cfg, f)
  {
    if f.redelivery.Never? || (f.redelivery.HolderStopped? && !f.crash && !f.ack) || NothingCompletes(cfg, f) {
      forall s: State, t: State, j: JobId | Leads(cfg, f, s, t) && IsCompleted(s, j) ensures IsCompleted(t, j) {
        StaysCompleted(cfg, f, s, t, j);
      }
    } else {
      var j, k := SomethingCompletes(cfg, f);
      RedeliveryUndoes(cfg, f, j, k);
    }
  }

  lemma StaysCompleted(cfg: Config, f: Faults, s: State, t: State, j: JobId)
    requires Leads(cfg, f, s, t) && IsCompleted(s, j)
    requires f.redelivery.Never? || (f.redelivery.HolderStopped? && !f.crash && !f.ack) || NothingCompletes(cfg, f)
    ensures IsCompleted(t, j)
  {
    var early, ls :| Run(cfg, f, ls) && early <= ls && Exec(cfg, early) == s && Exec(cfg, ls) == t;
    assert ls[..|early|] == early;
    if NothingCompletes(cfg, f) {
      RunPrefix(cfg, f, ls, |early|);
      NoneCompletedAlways(cfg, f, early);
      assert false;
    } else {
      if f.redelivery.HolderStopped? { NeverTakenBack(cfg, f, ls); }
      CompletedIsFinal(cfg, f.(redelivery := Never), ls, |early|, j);
    }
  }
}
