/** Whether what has begun can be finished: the exact faults under which every run can be continued until all jobs rest. */
module Progress {
  import opened Domain
  import opened Pipeline
  import opened Decomposition
  import opened RetryLevels
  import opened Conservation
  import opened Delays
  import opened Termination
  import opened Refinement
  import opened Lone

  // ---------------------------------------------------------------- deliveries always have a holder

  predicate Holds(k: Worker, id: CopyId) {
    k.tag == id && (k.Rejecting? || k.pc.BeforeAck())
  }

  predicate NoOrphans(s: State) {
    forall id | id in s.copies && s.copies[id].place.Unacked? :: exists w :: w in s.workers && Holds(s.workers[w], id)
  }

  predicate KeepsHolders(f: Faults) {
    !f.ack && !f.crash && !f.redelivery.Anytime?
  }

  lemma PatchHolders(cfg: Config, s: State, w: WorkerId, e: Effect, id: CopyId)
    requires NoOrphans(s) && TagsOk(s) && w in s.workers && s.workers[w].Working? && Fresh(s, id)
    requires e.put.Some? ==> !e.put.value.place.Unacked?
    requires e.next.Some? ==> e.next.value.Working? && e.next.value.tag == s.workers[w].tag
    requires s.workers[w].pc.BeforeAck() ==> e.ack || (e.next.Some? && e.next.value.pc.BeforeAck())
    ensures NoOrphans(Patch(s, w, e, id))
  {
    var t := Patch(s, w, e, id);
    forall i | i in t.copies && t.copies[i].place.Unacked?
      ensures exists v :: v in t.workers && Holds(t.workers[v], i)
    {
      assert i in s.copies && t.copies[i] == s.copies[i];
      var v :| v in s.workers && Holds(s.workers[v], i);
      if v != w {
        assert t.workers[v] == s.workers[v];
      } else {
        assert t.workers[w] == e.next.value;
      }
    }
  }

  lemma OrphansStep(cfg: Config, f: Faults, s: State, l: Label)
    requires NoOrphans(s) && TagsOk(s) && Enabled(s, l) && Allowed(f, s, l) && KeepsHolders(f)
    ensures NoOrphans(Apply(cfg, s, l))
  {
    var t := Apply(cfg, s, l);
    if l.Work? && s.workers[l.w].Working? {
      ActAcks(cfg, f, s, l.w, l.out, l.id);
      PatchHolders(cfg, s, l.w, EffectOf(cfg, s, l.w, l.out), l.id);
    } else {
      forall i | i in t.copies && t.copies[i].place.Unacked?
        ensures exists v :: v in t.workers && Holds(t.workers[v], i)
      {
        if l.Deliver? && l.id == i {
          assert Holds(t.workers[l.w], i);
        } else {
          assert i in s.copies && s.copies[i].place.Unacked?;
          var v :| v in s.workers && Holds(s.workers[v], i);
          assert t.workers[v] == s.workers[v];
        }
      }
    }
  }

  lemma ActAcks(cfg: Config, f: Faults, s: State, w: WorkerId, out: Outcome, id: CopyId)
    requires w in s.workers && s.workers[w].Working? && !f.ack && Fresh(s, id) && Allowed(f, s, Work(w, out, id))
    ensures var e, k := EffectOf(cfg, s, w, out), s.workers[w];
            && (e.put.Some? ==> !e.put.value.place.Unacked?)
            && (e.next.Some? ==> e.next.value.Working? && e.next.value.tag == k.tag)
            && (k.pc.BeforeAck() ==> e.ack || (e.next.Some? && e.next.value.pc.BeforeAck()))
  {
  }

  lemma {:induction false} OrphansAlways(cfg: Config, f: Faults, ls: seq<Label>)
    requires Run(cfg, f, ls) && KeepsHolders(f)
    ensures NoOrphans(Exec(cfg, ls))
  {
    if ls != [] {
      var before := ls[..|ls| - 1];
      OrphansAlways(cfg, f, before);
      TagsAlways(cfg, f, before);
      OrphansStep(cfg, f, Exec(cfg, before), ls[|ls| - 1]);
    }
  }

  // ---------------------------------------------------------------- somebody can always move

  lemma Above(ns: set<nat>) returns (n: nat)
    ensures forall i | i in ns :: i < n
    decreases ns
  {
    n := 0;
    if ns != {} {
      var i :| i in ns;
      n := Above(ns - {i});
      assert ns == (ns - {i}) + {i};
      if n <= i { n := i + 1; }
    }
  }

  lemma SomeFresh(s: State) returns (id: CopyId)
    ensures Fresh(s, id)
  {
    var tags := set w | w in s.workers :: s.workers[w].tag;
    id := Above(s.copies.Keys + tags);
    assert id !in s.copies.Keys + tags;
    forall w | w in s.workers ensures s.workers[w].tag != id {
      assert s.workers[w].tag in tags;
    }
  }

  predicate AllRest(s: State) {
    && s.workers == map[]
    && (forall id | id in s.copies :: !s.copies[id].Queued())
    && (forall j | j in s.calls :: !s.calls[j].Open())
  }

  /** From now on nothing goes wrong; the disk stays as it is. */
  function Gentle(f: Faults): Faults {
    Faults(false, false, false, false, false, false, false, false, false, Never, f.disk)
  }

  lemma GentleAllowed(f: Faults, s: State, l: Label)
    requires Enabled(s, l) && Allowed(Gentle(f), s, l)
    ensures Allowed(f, s, l)
  {
  }

  /** The outcome that lets the next call of a worker succeed, or follow the oracle. */
  function GoodOutcome(f: Faults, k: Worker): Outcome {
    if k.Working? && k.pc.Generating? && f.disk.Oracle? && !f.disk.writes(k.msg.jobId, k.msg.retryCount) then Err else Ok
  }

  lemma CanMove(cfg: Config, f: Faults, s: State) returns (ms: nat, l: Label)
    requires !AllRest(s) && Levels(cfg, s) && Delayed(s)
    ensures var t := Apply(cfg, s, Tick(ms)); Enabled(t, l) && Allowed(Gentle(f), t, l) && Draws(l)
  {
    var id := SomeFresh(s);
    ms := 0;
    if j :| j in s.calls && s.calls[j].Open() {
      l := Api(j, Ok, id);
    } else if w :| w in s.workers {
      l := Work(w, GoodOutcome(f, s.workers[w]), id);
    } else {
      ms, l := QueuedMoves(cfg, f, s);
    }
  }

  /** With nobody working, a message in a queue can be delivered, or one expires in time. */
  lemma QueuedMoves(cfg: Config, f: Faults, s: State) returns (ms: nat, l: Label)
    requires s.workers == map[] && Levels(cfg, s) && Delayed(s) && exists c :: c in s.copies && s.copies[c].Queued()
    ensures var t := Apply(cfg, s, Tick(ms)); Enabled(t, l) && Allowed(Gentle(f), t, l) && Draws(l)
  {
    var c :| c in s.copies && s.copies[c].Queued();
    if s.copies[c].place.Main? {
      ms, l := 0, Deliver(0, c);
    } else {
      ms := 10000;
      var head := HeadExpiresFirst(Apply(cfg, s, Tick(ms)), c);
      l := Expire(head);
    }
  }

  // ---------------------------------------------------------------- unacknowledged messages without a holder

  function Orphans(s: State): set<CopyId> {
    set id | id in s.copies && s.copies[id].place.Unacked? && forall w | w in s.workers :: !Holds(s.workers[w], id)
  }

  lemma PatchOrphans(s: State, w: WorkerId, e: Effect, id: CopyId)
    requires w in s.workers && s.workers[w].Working? && Fresh(s, id)
    requires e.put.Some? ==> !e.put.value.place.Unacked?
    requires e.next.Some? ==> e.next.value.Working? && e.next.value.tag == s.workers[w].tag
    requires s.workers[w].pc.BeforeAck() ==> e.ack || (e.next.Some? && e.next.value.pc.BeforeAck())
    ensures Orphans(Patch(s, w, e, id)) <= Orphans(s)
  {
    var t := Patch(s, w, e, id);
    forall i | i in Orphans(t) ensures i in Orphans(s) {
      assert i in s.copies && t.copies[i] == s.copies[i];
      forall v | v in s.workers ensures !Holds(s.workers[v], i) {
        if v != w {
          assert t.workers[v] == s.workers[v];
        } else if e.next.Some? {
          assert t.workers[w] == e.next.value && !Holds(e.next.value, i);
        }
      }
    }
  }

  /** A step in which nothing goes wrong leaves no delivery without its holder. */
  lemma GentleOrphans(cfg: Config, f: Faults, s: State, l: Label)
    requires Enabled(s, l) && Allowed(Gentle(f), s, l)
    ensures Orphans(Apply(cfg, s, l)) <= Orphans(s)
  {
    if l.Work? && s.workers[l.w].Working? {
      ActAcks(cfg, Gentle(f), s, l.w, l.out, l.id);
      PatchOrphans(s, l.w, EffectOf(cfg, s, l.w, l.out), l.id);
    } else {
      MoveOrphans(cfg, f, s, l);
    }
  }

  lemma MoveOrphans(cfg: Config, f: Faults, s: State, l: Label)
    requires Enabled(s, l) && Allowed(Gentle(f), s, l) && !(l.Work? && s.workers[l.w].Working?)
    ensures Orphans(Apply(cfg, s, l)) <= Orphans(s)
  {
    var t := Apply(cfg, s, l);
    if l.Work? {
      var tag := s.workers[l.w].tag;
      assert tag in s.copies ==> t.copies[tag].place.Dlq?;
    }
    assert l.Deliver? ==> l.w in t.workers && Holds(t.workers[l.w], l.id);
    forall i | i in Orphans(t) ensures i in Orphans(s) {
      assert i in s.copies && s.copies[i].place.Unacked?;
      forall v | v in s.workers ensures !Holds(s.workers[v], i) {
        if v in t.workers { assert t.workers[v] == s.workers[v]; }
      }
    }
  }

  // ---------------------------------------------------------------- runs can be continued to their end

  /** `full` continues the run `ls` without new work. */
  predicate Continues(cfg: Config, f: Faults, ls: seq<Label>, full: seq<Label>) {
    && Run(cfg, f, full) && ls <= full
    && Submits(full) == Submits(ls) && Injects(full) == Injects(ls)
    && Exec(cfg, ls).calls.Keys <= Exec(cfg, full).calls.Keys
  }

  /** One more step that is no new work. */
  lemma OneStep(cfg: Config, f: Faults, ls: seq<Label>, l: Label) returns (next: seq<Label>)
    requires Run(cfg, f, ls) && Enabled(Exec(cfg, ls), l) && Allowed(f, Exec(cfg, ls), l) && !l.Submit? && !l.Inject?
    ensures Continues(cfg, f, ls, next) && Exec(cfg, next) == Apply(cfg, Exec(cfg, ls), l)
  {
    next := ls + [l];
    RunSnoc(cfg, f, ls, l);
    CountsSnoc(ls, l);
    CallsStay(cfg, Exec(cfg, ls), l);
  }

  lemma ContinuesOn(cfg: Config, f: Faults, a: seq<Label>, b: seq<Label>, c: seq<Label>)
    requires Continues(cfg, f, a, b) && Continues(cfg, f, b, c)
    ensures Continues(cfg, f, a, c)
  {
  }

  /** One more move, after some time, in which nothing goes wrong. */
  lemma MoveOn(cfg: Config, f: Faults, ls: seq<Label>) returns (next: seq<Label>)
    requires Run(cfg, f, ls) && !AllRest(Exec(cfg, ls))
    ensures Continues(cfg, f, ls, next)
    ensures StepsLeft(cfg, Exec(cfg, next)) < StepsLeft(cfg, Exec(cfg, ls)) && Orphans(Exec(cfg, next)) <= Orphans(Exec(cfg, ls))
  {
    var s := Exec(cfg, ls);
    FaultsWeaken(cfg, f, ls);
    RetryLevelsAlways(cfg, ls);
    DelayedAlways(cfg, ls);
    TagsAlways(cfg, f, ls);
    var ms, l := CanMove(cfg, f, s);
    var t := Apply(cfg, s, Tick(ms));
    TickThen(cfg, f, s, ms, l);
    var later := OneStep(cfg, f, ls, Tick(ms));
    next := OneStep(cfg, f, later, l);
    ContinuesOn(cfg, f, ls, later, next);
  }

  lemma TickThen(cfg: Config, f: Faults, s: State, ms: nat, l: Label)
    requires TagsOk(s) && Levels(cfg, s)
    requires var t := Apply(cfg, s, Tick(ms)); Enabled(t, l) && Allowed(Gentle(f), t, l) && Draws(l)
    ensures var t := Apply(cfg, s, Tick(ms));
            && Allowed(f, t, l)
            && StepsLeft(cfg, Apply(cfg, t, l)) < StepsLeft(cfg, s) && Orphans(Apply(cfg, t, l)) <= Orphans(s)
  {
    var t := Apply(cfg, s, Tick(ms));
    GentleAllowed(f, t, l);
    GentleOrphans(cfg, f, t, l);
    LevelsStep(cfg, s, Tick(ms));
    WeightStep(cfg, s, Tick(ms));
    WeightStep(cfg, t, l);
    NoRefill(cfg, l);
    assert Orphans(t) == Orphans(s);
  }

  lemma NoRefill(cfg: Config, l: Label)
    requires Draws(l)
    ensures Refill(cfg, l) == 0
  {
  }

  /** Every run can be continued until nobody has anything to do, leaving no more deliveries without a holder. */
  lemma {:induction false} Drain(cfg: Config, f: Faults, ls: seq<Label>) returns (full: seq<Label>)
    requires Run(cfg, f, ls)
    ensures Continues(cfg, f, ls, full) && AllRest(Exec(cfg, full)) && Orphans(Exec(cfg, full)) <= Orphans(Exec(cfg, ls))
    decreases StepsLeft(cfg, Exec(cfg, ls))
  {
    if AllRest(Exec(cfg, ls)) {
      full := ls;
    } else {
      var next := MoveOn(cfg, f, ls);
      full := Drain(cfg, f, next);
      ContinuesOn(cfg, f, ls, next, full);
    }
  }

  /** When nobody works, a delivery without a holder may return to the queue. */
  lemma Reclaim(cfg: Config, f: Faults, ls: seq<Label>) returns (next: seq<Label>)
    requires Run(cfg, f, ls) && !f.redelivery.Never? && AllRest(Exec(cfg, ls)) && Orphans(Exec(cfg, ls)) != {}
    ensures Continues(cfg, f, ls, next) && |Orphans(Exec(cfg, next))| < |Orphans(Exec(cfg, ls))|
  {
    var s := Exec(cfg, ls);
    var id :| id in Orphans(s);
    var id' := SomeFresh(s);
    next := OneStep(cfg, f, ls, Redeliver(id, id'));
    var t := Exec(cfg, next);
    assert Orphans(t) <= Orphans(s) - {id};
    SmallerSet(Orphans(t), Orphans(s) - {id});
  }

  lemma SmallerSet<T>(a: set<T>, b: set<T>)
    requires a <= b
    ensures |a| <= |b|
  {
    assert b == a + (b - a);
  }

  /** The run `full` finishes what `ls` has begun: it continues it without new work until all its jobs rest. */
  ghost predicate Finishes(cfg: Config, f: Faults, ls: seq<Label>, full: seq<Label>) {
    Continues(cfg, f, ls, full) && forall j | j in Exec(cfg, ls).calls :: Quiescent(Exec(cfg, full), j)
  }

  lemma RestIsQuiescent(cfg: Config, f: Faults, ls: seq<Label>, full: seq<Label>)
    requires Continues(cfg, f, ls, full) && AllRest(Exec(cfg, full)) && Orphans(Exec(cfg, full)) == {}
    ensures Finishes(cfg, f, ls, full)
  {
    var s := Exec(cfg, full);
    forall id | id in s.copies ensures s.copies[id].place.Dlq? {
      assert id !in Orphans(s);
    }
  }

  /** With deliveries that return, and whatever has gone wrong, every run can be continued until all its jobs rest. */
  lemma {:induction false} CanFinishByRedelivery(cfg: Config, f: Faults, ls: seq<Label>) returns (full: seq<Label>)
    requires Run(cfg, f, ls) && !f.redelivery.Never?
    ensures Finishes(cfg, f, ls, full)
    decreases |Orphans(Exec(cfg, ls))|
  {
    full := Drain(cfg, f, ls);
    SmallerSet(Orphans(Exec(cfg, full)), Orphans(Exec(cfg, ls)));
    if Orphans(Exec(cfg, full)) == {} {
      RestIsQuiescent(cfg, f, ls, full);
    } else {
      var next := Reclaim(cfg, f, full);
      var end := CanFinishByRedelivery(cfg, f, next);
      ContinuesOn(cfg, f, ls, full, next);
      ContinuesOn(cfg, f, ls, next, end);
      full := end;
    }
  }

  /** So it can when deliveries keep their holders; other calls may fail, and the disk may take what it likes. */
  lemma CanFinish(cfg: Config, f: Faults, ls: seq<Label>) returns (full: seq<Label>)
    requires Run(cfg, f, ls) && KeepsHolders(f)
    ensures Finishes(cfg, f, ls, full)
  {
    full := Drain(cfg, f, ls);
    OrphansAlways(cfg, f, full);
    forall id ensures id !in Orphans(Exec(cfg, full)) {
    }
    RestIsQuiescent(cfg, f, ls, full);
  }

  // ---------------------------------------------------------------- and otherwise they cannot

  /** Message `id` of job `j` is unacknowledged, and nobody will acknowledge it. */
  predicate Stuck(s: State, j: JobId, id: CopyId) {
    && id in s.copies && s.copies[id].place.Unacked? && About(s.copies[id].body, j)
    && forall w | w in s.workers && s.workers[w].tag == id :: s.workers[w].Working? && !s.workers[w].pc.BeforeAck()
  }

  lemma ActPastAck(cfg: Config, s: State, w: WorkerId, out: Outcome)
    requires w in s.workers && s.workers[w].Working? && !s.workers[w].pc.BeforeAck()
    ensures var e := EffectOf(cfg, s, w, out);
            !e.ack && (e.next.Some? ==> e.next.value.Working? && e.next.value.tag == s.workers[w].tag && !e.next.value.pc.BeforeAck())
  {
  }

  lemma StuckPatch(s: State, w: WorkerId, e: Effect, other: CopyId, j: JobId, id: CopyId)
    requires Stuck(s, j, id) && w in s.workers && s.workers[w].Working? && Fresh(s, other)
    requires e.next.Some? ==> e.next.value.Working? && e.next.value.tag == s.workers[w].tag
    requires s.workers[w].tag == id ==> !e.ack && (e.next.Some? ==> !e.next.value.pc.BeforeAck())
    ensures Stuck(Patch(s, w, e, other), j, id)
  {
  }

  lemma StuckMove(cfg: Config, f: Faults, s: State, l: Label, j: JobId, id: CopyId)
    requires Stuck(s, j, id) && Enabled(s, l) && Allowed(f, s, l) && f.redelivery.Never?
    requires l.Work? ==> s.workers[l.w].Rejecting?
    ensures Stuck(Apply(cfg, s, l), j, id)
  {
  }

  lemma StuckStep(cfg: Config, f: Faults, s: State, l: Label, j: JobId, id: CopyId)
    requires Stuck(s, j, id) && Enabled(s, l) && Allowed(f, s, l) && f.redelivery.Never?
    ensures Stuck(Apply(cfg, s, l), j, id)
  {
    if l.Work? && s.workers[l.w].Working? {
      ActKeepsTag(cfg, s, l.w, l.out);
      if s.workers[l.w].tag == id { ActPastAck(cfg, s, l.w, l.out); }
      StuckPatch(s, l.w, EffectOf(cfg, s, l.w, l.out), l.id, j, id);
    } else {
      StuckMove(cfg, f, s, l, j, id);
    }
  }

  lemma {:induction false} StuckForever(cfg: Config, f: Faults, early: seq<Label>, ls: seq<Label>, j: JobId, id: CopyId)
    requires Run(cfg, f, ls) && early <= ls && f.redelivery.Never? && Stuck(Exec(cfg, early), j, id)
    ensures Stuck(Exec(cfg, ls), j, id)
  {
    if |early| < |ls| {
      var before := ls[..|ls| - 1];
      StuckForever(cfg, f, early, before, j, id);
      StuckStep(cfg, f, Exec(cfg, before), ls[|ls| - 1], j, id);
    } else {
      assert early == ls;
    }
  }

  /** A crash, or an acknowledgement that fails. */
  lemma GetsStuck(cfg: Config, f: Faults, j: JobId) returns (s: State)
    requires f.crash || f.ack
    ensures Reachable(cfg, f, s) && j in s.calls && Stuck(s, j, 0)
  {
    s := Begun(cfg, f, j, Unparseable);
    if f.crash {
      s := ReachOn(cfg, f, s, Crash(1));
    } else {
      s := FailedAttempt(cfg, f, s, j, Pending);
      s := NotAcknowledged(cfg, f, s, j);
    }
  }

  /** Every run can be finished. */
  ghost predicate CanAlwaysFinish(cfg: Config, f: Faults) {
    forall ls :: Run(cfg, f, ls) ==> exists full :: Finishes(cfg, f, ls, full)
  }

  /**
    For each configuration, every run can be continued without new work until all its jobs rest, exactly when
    deliveries can return to the queue, or neither crashes nor failed acknowledgements leave one without a holder. No
    other fault makes a job unable to finish.
  */
  lemma FinishExact(cfg: Config, f: Faults)
    ensures CanAlwaysFinish(cfg, f) <==> !f.redelivery.Never? || (!f.ack && !f.crash)
  {
    if !f.redelivery.Never? || (!f.ack && !f.crash) {
      forall ls | Run(cfg, f, ls) ensures exists full :: Finishes(cfg, f, ls, full) {
        var full;
        if f.redelivery.Never? {
          full := CanFinish(cfg, f, ls);
        } else {
          full := CanFinishByRedelivery(cfg, f, ls);
        }
      }
    } else {
      var s := GetsStuck(cfg, f, "j");
      var ls :| Run(cfg, f, ls) && Exec(cfg, ls) == s;
      forall full ensures !Finishes(cfg, f, ls, full) {
        if Continues(cfg, f, ls, full) {
          StuckForever(cfg, f, ls, full, "j", 0);
          assert !Quiescent(Exec(cfg, full), "j");
        }
      }
    }
  }

  lemma CallsStay(cfg: Config, s: State, l: Label)
    ensures s.calls.Keys <= Apply(cfg, s, l).calls.Keys
  {
  }

  lemma CountsSnoc(ls: seq<Label>, l: Label)
    ensures Submits(ls + [l]) == Submits(ls) + if l.Submit? then 1 else 0
    ensures Injects(ls + [l]) == Injects(ls) + if l.Inject? then 1 else 0
  {
    assert (ls + [l])[..|ls|] == ls;
  }
}
