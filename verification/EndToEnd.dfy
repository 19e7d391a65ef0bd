/** From the request of a user to the stream of a client: who receives which events, and in which order. */
module EndToEnd {
  import opened Domain
  import Pipeline
  import Ownership
  import Refinement
  import JobHistory
  import Decomposition
  import Conservation
  import Reports
  import AttemptLog
  import opened Broker
  import opened BrokerSafety
  import opened BrokerDelivery

  /** The broker broadcasts only events that came over the event exchange. */
  predicate FromBus(ls: seq<Label>, events: seq<JobEvent>) {
    forall l | l in ls && l.Broadcast? :: l.event in events
  }

  ghost predicate ReachableFrom(cfg: Config, events: seq<JobEvent>, s: State) {
    exists ls :: Run(cfg, ls) && FromBus(ls, events) && Exec(cfg, ls) == s
  }

  predicate Sourced(s: State, events: seq<JobEvent>) {
    && (forall t | t in s.casts :: s.casts[t].event in events)
    && (forall t, e | t in s.chans && e in s.chans[t].visits :: e in events)
  }

  lemma VisitSourced(c: Client, e: JobEvent, choice: Choice, events: seq<JobEvent>)
    requires e in events && forall x | x in c.visits :: x in events
    ensures forall x | x in Visit(c, e, choice).visits :: x in events
  {
  }

  lemma CastSourced(cfg: Config, s: State, t: Tid, client: Tid, choice: Choice, events: seq<JobEvent>)
    requires Sourced(s, events) && Enabled(cfg, s, StepCast(t, client, choice))
    ensures Sourced(CastStep(cfg, s, t, client, choice), events)
  {
    var u, pc := CastStep(cfg, s, t, client, choice), s.casts[t].pc;
    if pc.Send? {
      VisitSourced(s.chans[pc.client], s.casts[t].event, choice, events);
      assert u.chans == s.chans[pc.client := Visit(s.chans[pc.client], s.casts[t].event, choice)];
    } else if pc.Next? && pc.rest != {} && s.chans[client].doneClosed {
      VisitSourced(s.chans[client], s.casts[t].event, SeeDone, events);
      assert u.chans == s.chans[client := Visit(s.chans[client], s.casts[t].event, SeeDone)];
    } else {
      assert u.chans == s.chans;
    }
  }

  lemma SourcedStep(cfg: Config, s: State, l: Label, events: seq<JobEvent>)
    requires Sourced(s, events) && ChannelsOk(s) && Enabled(cfg, s, l) && (l.Broadcast? ==> l.event in events)
    ensures Sourced(Apply(cfg, s, l), events)
  {
    match l
    case StepCast(t, client, choice) => CastSourced(cfg, s, t, client, choice, events);
    case Handle(t) => HandleShapes(cfg, s, t);
    case _ =>
  }

  lemma {:induction false} SourcedAlways(cfg: Config, ls: seq<Label>, events: seq<JobEvent>)
    requires Run(cfg, ls) && FromBus(ls, events)
    ensures Sourced(Exec(cfg, ls), events)
  {
    if ls != [] {
      var before := ls[..|ls| - 1];
      SourcedAlways(cfg, before, events);
      SafeAlways(cfg, before);
      assert ls[|ls| - 1] in ls;
      SourcedStep(cfg, Exec(cfg, before), ls[|ls| - 1], events);
    }
  }

  lemma {:induction false} SubsequenceMember(a: seq<JobEvent>, b: seq<JobEvent>, e: JobEvent)
    requires Subsequence(a, b) && e in a
    ensures e in b
    decreases |b|
  {
    if a[|a| - 1] == b[|b| - 1] && Subsequence(a[..|a| - 1], b[..|b| - 1]) {
      if e in a[..|a| - 1] { SubsequenceMember(a[..|a| - 1], b[..|b| - 1], e); }
    } else {
      SubsequenceMember(a, b[..|b| - 1], e);
    }
  }

  /**
    Whatever fails in the pipeline and however the broker's threads interleave, every event that a client has
    received, or has waiting, carries the client's own user and belongs to a job whose row has that user; and what it
    says of the file or the error is true.
  */
  lemma EventsReachTheirOwner(pc: Pipeline.Config, f: Pipeline.Faults, p: Pipeline.State, cfg: Config, s: State, t: Tid, e: JobEvent)
    requires Pipeline.Reachable(pc, f, p) && ReachableFrom(cfg, p.events, s)
    requires t in s.chans && e in Received(s.chans[t])
    ensures t in s.handlers && e.userId == s.handlers[t].user
    ensures e.jobId in p.rows && p.rows[e.jobId].userId == s.handlers[t].user
    ensures Reports.EventTrue(pc, f, p.rows, p.files, e)
  {
    var ls :| Run(cfg, ls) && FromBus(ls, p.events) && Exec(cfg, ls) == s;
    DeliveryAccount(cfg, s, t);
    SourcedAlways(cfg, ls, p.events);
    SubsequenceMember(Received(s.chans[t]), s.chans[t].visits, e);
    Reports.EventsTellTheTruth(pc, f, p, e);
  }

  // ---------------------------------------------------------------- in order, and once

  /** The events that the listener passed on, in order. */
  function Broadcasts(ls: seq<Label>): seq<JobEvent> {
    if ls == [] then []
    else Broadcasts(ls[..|ls| - 1]) + if ls[|ls| - 1].Broadcast? then [ls[|ls| - 1].event] else []
  }

  /** A broadcast that has not looked up its clients. */
  predicate Early(s: State, b: Tid) {
    b in s.casts && (s.casts[b].pc.RLock? || s.casts[b].pc.LookUp?)
  }

  /** The log has what was passed on, but for the event of a broadcast that has not looked up its clients. */
  ghost predicate LogIs(s: State, passed: seq<JobEvent>) {
    && (forall b | Early(s, b) :: passed == s.log + [s.casts[b].event])
    && ((forall b :: !Early(s, b)) ==> passed == s.log)
  }

  lemma CastLog(cfg: Config, s: State, t: Tid, client: Tid, choice: Choice, passed: seq<JobEvent>)
    requires LogIs(s, passed) && OneAtATime(s) && Enabled(cfg, s, StepCast(t, client, choice))
    ensures LogIs(CastStep(cfg, s, t, client, choice), passed)
  {
    var u := CastStep(cfg, s, t, client, choice);
    var pc := CastGoes(cfg, s, t, client, choice);
    if s.casts[t].pc.LookUp? {
      LookUpGoes(cfg, s, t, client, choice);
      assert Early(s, t);
      assert forall b :: !Early(u, b);
    } else {
      LogStays(cfg, s, t, client, choice);
      assert forall b :: Early(u, b) <==> Early(s, b);
    }
  }

  lemma LogStays(cfg: Config, s: State, t: Tid, client: Tid, choice: Choice)
    requires Enabled(cfg, s, StepCast(t, client, choice)) && !s.casts[t].pc.LookUp?
    ensures var u := CastStep(cfg, s, t, client, choice);
            && u.log == s.log && t in u.casts && u.casts[t].event == s.casts[t].event
            && (s.casts[t].pc.RLock? <==> u.casts[t].pc.LookUp?) && !u.casts[t].pc.RLock?
  {
    if s.casts[t].pc.Send? {
      SendLog(cfg, s, t, client, choice);
    }
  }

  lemma SendLog(cfg: Config, s: State, t: Tid, client: Tid, choice: Choice)
    requires Enabled(cfg, s, StepCast(t, client, choice)) && s.casts[t].pc.Send?
    ensures var u := CastStep(cfg, s, t, client, choice);
            u.log == s.log && t in u.casts && u.casts[t] == Cast(s.casts[t].event, Next(s.casts[t].pc.rest))
  {
  }

  lemma OtherLog(cfg: Config, s: State, l: Label, passed: seq<JobEvent>)
    requires LogIs(s, passed) && Enabled(cfg, s, l) && !l.StepCast? && (l.Broadcast? ==> NoBroadcast(s))
    ensures LogIs(Apply(cfg, s, l), passed + if l.Broadcast? then [l.event] else [])
  {
    var u := Apply(cfg, s, l);
    if l.Handle? {
      HandlersDoNotCast(cfg, s, l.t);
      HandlerShapes(cfg, s, l.t);
    }
    if l.Broadcast? {
      assert forall b :: !Early(s, b);
      assert Early(u, l.t) && forall b :: Early(u, b) ==> b == l.t;
    } else {
      assert forall b :: Early(u, b) <==> Early(s, b);
    }
  }

  lemma {:induction false} LogAlways(cfg: Config, ls: seq<Label>)
    requires Run(cfg, ls) && OneListener(cfg, ls)
    ensures LogIs(Exec(cfg, ls), Broadcasts(ls))
  {
    if ls != [] {
      var before, l := ls[..|ls| - 1], ls[|ls| - 1];
      LogAlways(cfg, before);
      VisitedAlways(cfg, before);
      if l.StepCast? {
        CastLog(cfg, Exec(cfg, before), l.t, l.client, l.choice, Broadcasts(before));
      } else {
        OtherLog(cfg, Exec(cfg, before), l, Broadcasts(before));
      }
    }
  }

  lemma {:induction false} SubsequenceSelf(a: seq<JobEvent>)
    ensures Subsequence(a, a)
  {
    if a != [] { SubsequenceSelf(a[..|a| - 1]); }
  }

  lemma {:induction false} SubsequenceTrans(a: seq<JobEvent>, b: seq<JobEvent>, c: seq<JobEvent>)
    requires Subsequence(a, b) && Subsequence(b, c)
    ensures Subsequence(a, c)
    decreases |c|
  {
    if a != [] {
      var b', c' := b[..|b| - 1], c[..|c| - 1];
      if Subsequence(b, c') {
        SubsequenceTrans(a, b, c');
      } else if Subsequence(a, b') {
        SubsequenceTrans(a, b', c');
      } else {
        SubsequenceTrans(a[..|a| - 1], b', c');
      }
    }
  }

  lemma {:induction false} EventsForKeeps(a: seq<JobEvent>, b: seq<JobEvent>, user: UserId)
    requires Subsequence(a, b)
    ensures Subsequence(EventsFor(a, user), EventsFor(b, user))
    decreases |b|
  {
    if a != [] {
      var a', b', e := a[..|a| - 1], b[..|b| - 1], b[|b| - 1];
      if a[|a| - 1] == e && Subsequence(a', b') {
        EventsForKeeps(a', b', user);
        SubsequenceSnoc(EventsFor(a', user), EventsFor(b', user), e);
      } else {
        EventsForKeeps(a, b', user);
        SubsequenceSnoc(EventsFor(a, user), EventsFor(b', user), e);
      }
    }
  }

  lemma {:induction false} SliceIsSubsequence(log: seq<JobEvent>, from: nat, to: nat)
    requires from <= to <= |log|
    ensures Subsequence(log[from..to], log)
    decreases |log|
  {
    if to < |log| {
      assert log[from..to] == log[..|log| - 1][from..to];
      SliceIsSubsequence(log[..|log| - 1], from, to);
    } else if from < to {
      assert log[from..to][..to - from - 1] == log[..|log| - 1][from..to - 1];
      SliceIsSubsequence(log[..|log| - 1], from, to - 1);
    }
  }

  /** `passed` was broadcast by the one listener on the way to `s`. */
  ghost predicate Forwards(cfg: Config, passed: seq<JobEvent>, s: State) {
    exists ls :: Run(cfg, ls) && OneListener(cfg, ls) && Broadcasts(ls) == passed && Exec(cfg, ls) == s
  }

  lemma WindowInOrder(c: Client, log: seq<JobEvent>, passed: seq<JobEvent>, bus: seq<JobEvent>)
    requires WindowOk(c, |log|) && log <= passed && Subsequence(passed, bus)
    ensures Subsequence(Window(c, log), bus)
  {
    var from := if c.since.None? then 0 else c.since.value;
    var to := if c.since.None? then 0 else if c.until.Some? then c.until.value else |log|;
    assert Window(c, log) == passed[from..to];
    SliceIsSubsequence(passed, from, to);
    SubsequenceTrans(passed[from..to], passed, bus);
  }

  /**
    If the listener passes on events of the bus in their order, possibly not all of them, then what any client has
    received, at any moment, is an in-order selection of the events on the bus for its user, none of them twice.
  */
  lemma ReceivedInOrder(cfg: Config, bus: seq<JobEvent>, passed: seq<JobEvent>, s: State, t: Tid)
    requires Forwards(cfg, passed, s) && Subsequence(passed, bus) && t in s.chans
    ensures t in s.handlers && Subsequence(Received(s.chans[t]), EventsFor(bus, s.handlers[t].user))
  {
    var ls :| Run(cfg, ls) && OneListener(cfg, ls) && Broadcasts(ls) == passed && Exec(cfg, ls) == s;
    LogAlways(cfg, ls);
    assert s.log <= passed;
    CompleteDelivery(cfg, s, t);
    WindowInOrder(s.chans[t], s.log, passed, bus);
    EventsForKeeps(Window(s.chans[t], s.log), bus, s.handlers[t].user);
    SubsequenceTrans(Received(s.chans[t]), Sent(s, t), EventsFor(bus, s.handlers[t].user));
  }

  /** All events of job `j` are for one user, so a selection by user keeps them. */
  lemma {:induction false} JobEventsKept(events: seq<JobEvent>, user: UserId, j: JobId)
    requires forall e | e in events && e.jobId == j :: e.userId == user
    ensures Decomposition.EventsOf(EventsFor(events, user), j) == Decomposition.EventsOf(events, j)
  {
    if events != [] {
      var rest, e := events[..|events| - 1], events[|events| - 1];
      JobEventsKept(rest, user, j);
      var kept := EventsFor(rest, user);
      assert (kept + [e])[..|kept|] == kept;
    }
  }

  /** At rest, a client that was in the map all the time, with nothing dropped or skipped, has received all events of its user. */
  lemma ReceivedAll(cfg: Config, passed: seq<JobEvent>, s: State, t: Tid)
    requires Forwards(cfg, passed, s) && NoBroadcast(s)
    requires t in s.chans && t in s.handlers && s.chans[t].since == Some(0) && s.chans[t].until.None?
    requires s.chans[t].dropped == 0 && s.chans[t].skipped == 0
    ensures Received(s.chans[t]) == EventsFor(passed, s.handlers[t].user)
  {
    var ls :| Run(cfg, ls) && OneListener(cfg, ls) && Broadcasts(ls) == passed && Exec(cfg, ls) == s;
    LogAlways(cfg, ls);
    assert forall b :: !Early(s, b);
    CompleteDelivery(cfg, s, t);
    assert !OnItsWay(s, t);
    assert Window(s.chans[t], s.log) == passed;
  }

  /**
    The whole way: when nothing fails but attempts of the generator, the listener has passed on all events and is at
    rest, and a client was in the map from the first broadcast on with nothing dropped or skipped, then it has received
    all events of its user, in order, and of each of its user's jobs that is done with exactly the statuses of the
    specification, each with the path or the error that its attempt answered.
  */
  lemma ToldEverything(pc: Pipeline.Config, disk: Refinement.DiskOracle, p: Pipeline.State, cfg: Config, s: State, t: Tid, j: JobId)
    requires Pipeline.Reachable(pc, Refinement.NoFaults(disk), p) && Refinement.Quiescent(p, j)
    requires Forwards(cfg, p.events, s) && NoBroadcast(s)
    requires t in s.chans && t in s.handlers && s.chans[t].since == Some(0) && s.chans[t].until.None?
    requires s.chans[t].dropped == 0 && s.chans[t].skipped == 0
    requires j in p.rows && p.rows[j].userId == s.handlers[t].user
    ensures Received(s.chans[t]) == EventsFor(p.events, s.handlers[t].user)
    ensures JobHistory.Statuses(Decomposition.EventsOf(Received(s.chans[t]), j)) == Refinement.Spec(pc, disk, j, p.calls[j].payload).told
    ensures AttemptLog.LogTells(pc, disk, j, p.calls[j].payload, Decomposition.EventsOf(Received(s.chans[t]), j))
  {
    ReceivedAll(cfg, p.events, s, t);
    OwnEvents(pc, disk, p, j);
    JobEventsKept(p.events, s.handlers[t].user, j);
    Refinement.QuiescentMeetsSpec(pc, disk, p, j);
    if Decomposition.EventsOf(p.events, j) != [] {
      AttemptLog.EachEventTellsItsAttempt(pc, disk, p, j);
    }
  }

  lemma OwnEvents(pc: Pipeline.Config, disk: Refinement.DiskOracle, p: Pipeline.State, j: JobId)
    requires Pipeline.Reachable(pc, Refinement.NoFaults(disk), p) && j in p.rows
    ensures forall e | e in p.events && e.jobId == j :: e.userId == p.rows[j].userId
  {
    var jobs :| Pipeline.Run(pc, Refinement.NoFaults(disk), jobs) && Pipeline.Exec(pc, jobs) == p;
    Conservation.FaultsWeaken(pc, Refinement.NoFaults(disk), jobs);
    Ownership.OwnedAlways(pc, jobs);
    assert forall e | e in p.events :: Ownership.EventOwned(p.rows, e);
  }
}
