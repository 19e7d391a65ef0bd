/** What a client of the SSE broker receives. */
module BrokerDelivery {
  import opened Domain
  import opened Broker
  import opened BrokerSafety

  /** `a` is `b` with some elements left out. */
  predicate Subsequence(a: seq<JobEvent>, b: seq<JobEvent>) {
    a == [] ||
    (b != [] &&
     ((a[|a| - 1] == b[|b| - 1] && Subsequence(a[..|a| - 1], b[..|b| - 1])) || Subsequence(a, b[..|b| - 1])))
  }

  lemma SubsequenceSnoc(a: seq<JobEvent>, b: seq<JobEvent>, e: JobEvent)
    requires Subsequence(a, b)
    ensures Subsequence(a, b + [e]) && Subsequence(a + [e], b + [e])
  {
    assert (b + [e])[..|b|] == b && (a + [e])[..|a|] == a;
  }

  /** What the client has received: what its reader took, and what waits in the buffer. */
  function Received(c: Client): seq<JobEvent> { c.taken + c.buffer }

  /** Every visit is accounted for. */
  predicate ClientOk(cfg: Config, c: Client) {
    && Subsequence(Received(c), c.visits)
    && |Received(c)| + c.dropped + c.skipped == |c.visits|
    && (c.dropped == 0 && c.skipped == 0 ==> Received(c) == c.visits)
    && |c.buffer| <= cfg.clientBuffer
    && (c.skipped > 0 ==> c.doneClosed)
    && (c.dropped > 0 ==> |c.visits| > cfg.clientBuffer)
  }

  lemma VisitOk(cfg: Config, c: Client, e: JobEvent, choice: Choice)
    requires ClientOk(cfg, c) && !c.eventsClosed
    requires choice.SeeDone? ==> c.doneClosed
    requires choice.Deliver? ==> |c.buffer| < cfg.clientBuffer
    requires choice.Drop? ==> |c.buffer| >= cfg.clientBuffer
    ensures ClientOk(cfg, Visit(c, e, choice)) && Visit(c, e, choice).visits == c.visits + [e]
  {
    if choice.Deliver? || choice.HandOver? {
      VisitReceived(cfg, c, e, choice);
    } else {
      VisitMissed(cfg, c, e, choice);
    }
  }

  lemma VisitReceived(cfg: Config, c: Client, e: JobEvent, choice: Choice)
    requires ClientOk(cfg, c) && !c.eventsClosed && (choice.Deliver? || choice.HandOver?)
    requires choice.Deliver? ==> |c.buffer| < cfg.clientBuffer
    ensures ClientOk(cfg, Visit(c, e, choice)) && Visit(c, e, choice).visits == c.visits + [e]
  {
    var d := Visit(c, e, choice);
    assert Received(d) == Received(c) + [e];
    OneMore(cfg, c, d, e);
  }

  /** A visit that is received keeps the account. */
  lemma OneMore(cfg: Config, c: Client, d: Client, e: JobEvent)
    requires ClientOk(cfg, c) && d.visits == c.visits + [e] && Received(d) == Received(c) + [e]
    requires d.dropped == c.dropped && d.skipped == c.skipped && |d.buffer| <= cfg.clientBuffer && d.doneClosed == c.doneClosed
    ensures ClientOk(cfg, d)
  {
    SubsequenceSnoc(Received(c), c.visits, e);
  }

  lemma VisitMissed(cfg: Config, c: Client, e: JobEvent, choice: Choice)
    requires ClientOk(cfg, c) && (choice.SeeDone? || choice.Drop?)
    requires (choice.SeeDone? ==> c.doneClosed) && (choice.Drop? ==> |c.buffer| >= cfg.clientBuffer)
    ensures ClientOk(cfg, Visit(c, e, choice)) && Visit(c, e, choice).visits == c.visits + [e]
  {
    SubsequenceSnoc(Received(c), c.visits, e);
    assert Received(Visit(c, e, choice)) == Received(c);
  }

  lemma TakeOk(cfg: Config, c: Client)
    requires ClientOk(cfg, c) && c.buffer != []
    ensures ClientOk(cfg, c.(buffer := c.buffer[1..], taken := c.taken + [c.buffer[0]]))
  {
    assert Received(c.(buffer := c.buffer[1..], taken := c.taken + [c.buffer[0]])) == Received(c);
  }

  /** Of `sent` broadcasts, those from `since` up to `until`, or all the later ones, found the client in the map. */
  predicate WindowOk(c: Client, sent: nat) {
    && (c.since.Some? ==> c.since.value <= sent)
    && (c.until.Some? ==> c.since.Some? && c.since.value <= c.until.value <= sent)
  }

  /** A client is in order, and was visited only by events of its user. */
  predicate ClientFine(cfg: Config, c: Client, h: Handler, sent: nat) {
    && ClientOk(cfg, c)
    && (forall e | e in c.visits :: e.userId == h.user)
    && WindowOk(c, sent)
    && c.since.Some? == h.pc.Entered() && c.until.Some? == h.pc.Departed()
    && (!h.pc.Entered() ==> c.visits == [])
  }

  predicate ClientsOk(cfg: Config, s: State) {
    forall t | t in s.chans :: t in s.handlers && ClientFine(cfg, s.chans[t], s.handlers[t], |s.log|)
  }

  /** Where a step takes handler `t`, as far as the clients' histories care. */
  predicate HandlerShape(s: State, u: State, t: Tid) {
    && u.log == s.log && u.casts == s.casts
    && t in s.handlers && t in u.handlers && u.handlers == s.handlers[t := u.handlers[t]]
    && u.handlers[t].user == s.handlers[t].user
    && var pc, pc' := s.handlers[t].pc, u.handlers[t].pc;
    && pc'.Registered() == (pc.Insert? || (pc.Registered() && !pc.Delete?))
    && pc'.Departed() == (pc.Delete? || pc.Departed())
  }

  /** What a step of handler `t` leaves of the clients' histories. */
  predicate ChansShape(s: State, u: State, t: Tid, pc: HandlerPc) {
    if t in s.chans then
      var c := s.chans[t];
      && !pc.LoadActive?
      && t in u.chans && u.chans == s.chans[t := u.chans[t]]
      && u.chans[t] ==
         (match pc
          case Insert => c.(since := Some(|s.log|))
          case Delete => c.(until := Some(|s.log|))
          case CloseDone => c.(doneClosed := true)
          case CloseEvents => c.(eventsClosed := true)
          case _ => c)
    else u.chans == s.chans || (pc.LoadActive? && u.chans == s.chans[t := NewClient])
  }

  predicate HandleShape(s: State, u: State, t: Tid) {
    HandlerShape(s, u, t) && ChansShape(s, u, t, s.handlers[t].pc)
  }

  lemma HandlerShapes(cfg: Config, s: State, t: Tid)
    requires Enabled(cfg, s, Handle(t))
    ensures HandlerShape(s, HandleStep(cfg, s, t), t)
  {
    HandlerGoes(cfg, s, t);
    HandlersDoNotCast(cfg, s, t);
  }

  lemma ChansShapes(cfg: Config, s: State, t: Tid)
    requires Enabled(cfg, s, Handle(t))
    requires t in s.chans ==> s.chans[t].doneClosed == s.handlers[t].pc.DoneClosed() && s.chans[t].eventsClosed == s.handlers[t].pc.EventsClosed()
    requires s.handlers[t].pc.HasClient() <==> t in s.chans
    ensures ChansShape(s, HandleStep(cfg, s, t), t, s.handlers[t].pc)
  {
    var u, pc := HandleStep(cfg, s, t), s.handlers[t].pc;
    if t in s.chans {
      if pc.Insert? || pc.Delete? || pc.CloseDone? || pc.CloseEvents? {
        assert u.chans == s.chans[t := u.chans[t]];
      } else {
        assert u.chans == s.chans;
        assert s.chans == s.chans[t := s.chans[t]];
      }
    }
  }

  lemma HandleShapes(cfg: Config, s: State, t: Tid)
    requires Enabled(cfg, s, Handle(t)) && ChannelsOk(s)
    ensures HandleShape(s, HandleStep(cfg, s, t), t)
  {
    HandlerShapes(cfg, s, t);
    ChansShapes(cfg, s, t);
  }

  lemma ShapeFine(cfg: Config, s: State, u: State, t: Tid)
    requires HandleShape(s, u, t) && ClientsOk(cfg, s)
    ensures ClientsOk(cfg, u)
  {
    if t in u.chans && t in s.chans {
      OwnFine(cfg, s, u, t);
    }
  }

  lemma OwnFine(cfg: Config, s: State, u: State, t: Tid)
    requires HandleShape(s, u, t) && t in s.chans && ClientFine(cfg, s.chans[t], s.handlers[t], |s.log|)
    ensures t in u.chans && ClientFine(cfg, u.chans[t], u.handlers[t], |u.log|)
  {
    SameClientOk(cfg, s.chans[t], u.chans[t]);
  }

  /** Closing a channel, or entering or leaving the map, does not touch what was received. */
  lemma SameClientOk(cfg: Config, c: Client, d: Client)
    requires ClientOk(cfg, c) && (c.doneClosed ==> d.doneClosed)
    requires d == c.(doneClosed := d.doneClosed, eventsClosed := d.eventsClosed, since := d.since, until := d.until)
    ensures ClientOk(cfg, d)
  {
    assert Received(d) == Received(c);
  }

  lemma HandleClientsOk(cfg: Config, s: State, t: Tid)
    requires ClientsOk(cfg, s) && ChannelsOk(s) && Enabled(cfg, s, Handle(t))
    ensures ClientsOk(cfg, HandleStep(cfg, s, t)) && HandleShape(s, HandleStep(cfg, s, t), t)
  {
    HandleShapes(cfg, s, t);
    ShapeFine(cfg, s, HandleStep(cfg, s, t), t);
  }

  lemma SendClientsOk(cfg: Config, s: State, t: Tid, client: Tid, choice: Choice)
    requires ClientsOk(cfg, s) && AheadOk(s) && ChannelsOk(s) && Enabled(cfg, s, StepCast(t, client, choice)) && s.casts[t].pc.Send?
    ensures ClientsOk(cfg, CastStep(cfg, s, t, client, choice))
  {
    var c, e := s.casts[t].pc.client, s.casts[t].event;
    assert c in s.casts[t].pc.Ahead();
    VisitOk(cfg, s.chans[c], e, choice);
    assert ClientFine(cfg, Visit(s.chans[c], e, choice), s.handlers[c], |s.log|);
  }

  lemma NextClientsOk(cfg: Config, s: State, t: Tid, client: Tid, choice: Choice)
    requires ClientsOk(cfg, s) && AheadOk(s) && ChannelsOk(s) && Enabled(cfg, s, StepCast(t, client, choice)) && s.casts[t].pc.Next?
    ensures ClientsOk(cfg, CastStep(cfg, s, t, client, choice))
  {
    var e := s.casts[t].event;
    if s.casts[t].pc.rest != {} && s.chans[client].doneClosed {
      assert client in s.casts[t].pc.Ahead();
      VisitOk(cfg, s.chans[client], e, SeeDone);
      assert ClientFine(cfg, Skip(s.chans[client], e), s.handlers[client], |s.log|);
    }
  }

  /** A client at the head of a broadcast, before and after its visit. */
  lemma CastClientsOk(cfg: Config, s: State, t: Tid, client: Tid, choice: Choice)
    requires ClientsOk(cfg, s) && Safe(s) && Enabled(cfg, s, StepCast(t, client, choice))
    ensures ClientsOk(cfg, CastStep(cfg, s, t, client, choice))
  {
    if s.casts[t].pc.Send? {
      SendClientsOk(cfg, s, t, client, choice);
    } else if s.casts[t].pc.Next? {
      NextClientsOk(cfg, s, t, client, choice);
    }
  }

  lemma ClientsOkStep(cfg: Config, s: State, l: Label)
    requires ClientsOk(cfg, s) && Safe(s) && Enabled(cfg, s, l)
    ensures ClientsOk(cfg, Apply(cfg, s, l))
  {
    match l
    case Handle(t) => HandleClientsOk(cfg, s, t);
    case StepCast(t, client, choice) => CastClientsOk(cfg, s, t, client, choice);
    case _ => OtherClientsOk(cfg, s, l);
  }

  lemma OtherClientsOk(cfg: Config, s: State, l: Label)
    requires ClientsOk(cfg, s) && ChannelsOk(s) && Enabled(cfg, s, l) && (l.Connect? || l.Take? || l.Leave? || l.Broadcast?)
    ensures ClientsOk(cfg, Apply(cfg, s, l))
  {
    if l.Take? {
      TakeClientsOk(cfg, s, l.t);
    } else {
      forall c | c in s.chans ensures c in Apply(cfg, s, l).handlers && ClientFine(cfg, s.chans[c], Apply(cfg, s, l).handlers[c], |s.log|) {
        HandlerAlike(cfg, s, l, c);
      }
    }
  }

  lemma TakeClientsOk(cfg: Config, s: State, t: Tid)
    requires ClientsOk(cfg, s) && Enabled(cfg, s, Take(t))
    ensures ClientsOk(cfg, Apply(cfg, s, Take(t)))
  {
    TakeOk(cfg, s.chans[t]);
  }

  /** Connecting, beginning to leave and broadcasting change nothing about a client that is there. */
  lemma HandlerAlike(cfg: Config, s: State, l: Label, c: Tid)
    requires Enabled(cfg, s, l) && (l.Connect? || l.Leave? || l.Broadcast?) && c in s.chans && c in s.handlers
    requires ClientFine(cfg, s.chans[c], s.handlers[c], |s.log|)
    ensures c in Apply(cfg, s, l).handlers && ClientFine(cfg, s.chans[c], Apply(cfg, s, l).handlers[c], |s.log|)
  {
    var h := Apply(cfg, s, l).handlers[c];
    assert h.user == s.handlers[c].user && h.pc.Entered() == s.handlers[c].pc.Entered() && h.pc.Departed() == s.handlers[c].pc.Departed();
  }

  /** An event is dropped only on a full buffer, and skipped only after the client began to leave. */
  predicate MissesFairly(cfg: Config, was: Client, now: Client) {
    && was.dropped <= now.dropped && was.skipped <= now.skipped
    && (was.dropped < now.dropped ==> |was.buffer| >= cfg.clientBuffer && !was.doneClosed && !was.eventsClosed)
    && (was.skipped < now.skipped ==> was.doneClosed)
  }

  lemma MissedOnlyWhen(cfg: Config, s: State, l: Label, c: Tid)
    requires Reachable(cfg, s) && Enabled(cfg, s, l) && c in s.chans
    ensures c in Apply(cfg, s, l).chans && MissesFairly(cfg, s.chans[c], Apply(cfg, s, l).chans[c])
  {
    var ls :| Run(cfg, ls) && Exec(cfg, ls) == s;
    SafeAlways(cfg, ls);
    match l
    case Handle(t) => HandleMisses(cfg, s, t, c);
    case StepCast(t, client, choice) => CastMisses(cfg, s, t, client, choice, c);
    case _ =>
  }

  lemma HandleMisses(cfg: Config, s: State, t: Tid, c: Tid)
    requires Enabled(cfg, s, Handle(t)) && ChannelsOk(s) && c in s.chans
    ensures c in HandleStep(cfg, s, t).chans && MissesFairly(cfg, s.chans[c], HandleStep(cfg, s, t).chans[c])
  {
    HandleShapes(cfg, s, t);
  }

  lemma CastMisses(cfg: Config, s: State, t: Tid, client: Tid, choice: Choice, c: Tid)
    requires Enabled(cfg, s, StepCast(t, client, choice)) && c in s.chans
    ensures c in CastStep(cfg, s, t, client, choice).chans && MissesFairly(cfg, s.chans[c], CastStep(cfg, s, t, client, choice).chans[c])
  {
    var u, pc, e := CastStep(cfg, s, t, client, choice), s.casts[t].pc, s.casts[t].event;
    if pc.Send? {
      assert u.chans == s.chans[pc.client := Visit(s.chans[pc.client], e, choice)];
    } else if pc.Next? && pc.rest != {} && s.chans[client].doneClosed {
      assert u.chans == s.chans[client := Skip(s.chans[client], e)];
    } else {
      assert u.chans == s.chans;
    }
  }

  /** Broadcast `b` has found client `c` not leaving and is about to send to it. */
  predicate Sending(s: State, b: Tid, c: Tid) {
    b in s.casts && s.casts[b].pc.Send? && s.casts[b].pc.client == c
  }

  /** No broadcast has started to send to client `c`, and it has got nothing but the event of one that already had. */
  ghost predicate Spared(s: State, u: State, c: Tid)
    requires c in s.chans
  {
    && (forall b | Sending(u, b, c) :: Sending(s, b, c))
    && c in u.chans
    && (|| Received(u.chans[c]) == Received(s.chans[c])
        || exists b :: Sending(s, b, c) && !Sending(u, b, c) && Received(u.chans[c]) == Received(s.chans[c]) + [s.casts[b].event])
  }

  /**
    Once a client has begun to leave, no broadcast starts to send to it, and it gets no more than the events of those
    that already had.
  */
  lemma LeavingIsSpared(cfg: Config, s: State, l: Label, c: Tid)
    requires Reachable(cfg, s) && Enabled(cfg, s, l) && c in s.chans && s.chans[c].doneClosed
    ensures Spared(s, Apply(cfg, s, l), c)
  {
    var ls :| Run(cfg, ls) && Exec(cfg, ls) == s;
    SafeAlways(cfg, ls);
    match l
    case Handle(t) => HandleSpares(cfg, s, t, c);
    case StepCast(t, client, choice) => CastSpares(cfg, s, t, client, choice, c);
    case _ => OtherSpares(cfg, s, l, c);
  }

  lemma HandleSpares(cfg: Config, s: State, t: Tid, c: Tid)
    requires Enabled(cfg, s, Handle(t)) && ChannelsOk(s) && c in s.chans
    ensures Spared(s, HandleStep(cfg, s, t), c)
  {
    HandleShapes(cfg, s, t);
    assert Received(HandleStep(cfg, s, t).chans[c]) == Received(s.chans[c]);
  }

  lemma OtherSpares(cfg: Config, s: State, l: Label, c: Tid)
    requires Enabled(cfg, s, l) && c in s.chans && (l.Connect? || l.Take? || l.Leave? || l.Broadcast?)
    ensures Spared(s, Apply(cfg, s, l), c)
  {
    assert Received(Apply(cfg, s, l).chans[c]) == Received(s.chans[c]);
  }

  lemma CastSpares(cfg: Config, s: State, t: Tid, client: Tid, choice: Choice, c: Tid)
    requires Enabled(cfg, s, StepCast(t, client, choice)) && c in s.chans && s.chans[c].doneClosed
    ensures Spared(s, CastStep(cfg, s, t, client, choice), c)
  {
    var u, pc, e := CastStep(cfg, s, t, client, choice), s.casts[t].pc, s.casts[t].event;
    if pc.Send? {
      assert u.chans == s.chans[pc.client := Visit(s.chans[pc.client], e, choice)];
      VisitGives(s.chans[pc.client], e, choice);
      assert pc.client == c ==> Sending(s, t, c) && !Sending(u, t, c);
    } else if pc.Next? && pc.rest != {} && s.chans[client].doneClosed {
      assert u.chans == s.chans[client := Skip(s.chans[client], e)];
    } else {
      assert u.chans == s.chans;
    }
  }

  /** A visit gives a client the event or nothing. */
  lemma VisitGives(c: Client, e: JobEvent, choice: Choice)
    ensures var d := Visit(c, e, choice); Received(d) == Received(c) || Received(d) == Received(c) + [e]
  {
    if choice.Deliver? && !c.eventsClosed {
      assert Received(Visit(c, e, choice)) == Received(c) + [e];
    }
  }

  /**
    What a client received is an in-order selection of the broadcasts that visited it, all of its own user; what is
    missing was dropped on a full buffer or skipped after the client began to leave, and the buffer never overflows.
    A client has nothing dropped before it was visited more often than its buffer holds.
  */
  lemma DeliveryAccount(cfg: Config, s: State, t: Tid)
    requires Reachable(cfg, s) && t in s.chans
    ensures var c := s.chans[t];
            && t in s.handlers
            && Subsequence(Received(c), c.visits)
            && (forall e | e in c.visits :: e.userId == s.handlers[t].user)
            && |Received(c)| + c.dropped + c.skipped == |c.visits|
            && (c.dropped == 0 && c.skipped == 0 ==> Received(c) == c.visits)
            && |c.buffer| <= cfg.clientBuffer
            && (c.skipped > 0 ==> c.doneClosed)
            && (c.dropped > 0 ==> |c.visits| > cfg.clientBuffer)
  {
    var ls :| Run(cfg, ls) && Exec(cfg, ls) == s;
    ClientsOkAlways(cfg, ls);
    assert ClientFine(cfg, s.chans[t], s.handlers[t], |s.log|);
  }

  lemma {:induction false} ClientsOkAlways(cfg: Config, ls: seq<Label>)
    requires Run(cfg, ls)
    ensures ClientsOk(cfg, Exec(cfg, ls))
  {
    if ls != [] {
      ClientsOkAlways(cfg, ls[..|ls| - 1]);
      SafeAlways(cfg, ls[..|ls| - 1]);
      ClientsOkStep(cfg, Exec(cfg, ls[..|ls| - 1]), ls[|ls| - 1]);
    }
  }

  // ---------------------------------------------------------------- one listener

  function EventsFor(log: seq<JobEvent>, user: UserId): seq<JobEvent> {
    if log == [] then []
    else
      var rest := EventsFor(log[..|log| - 1], user);
      if log[|log| - 1].userId == user then rest + [log[|log| - 1]] else rest
  }

  lemma EventsForSnoc(log: seq<JobEvent>, e: JobEvent, user: UserId)
    ensures EventsFor(log + [e], user) == if e.userId == user then EventsFor(log, user) + [e] else EventsFor(log, user)
  {
    assert (log + [e])[..|log|] == log;
  }

  predicate NoBroadcast(s: State) {
    forall t | t in s.casts :: s.casts[t].pc.Finished?
  }

  /** `listenEvents` is one goroutine: it starts a broadcast only when the one before has returned. */
  predicate OneListener(cfg: Config, ls: seq<Label>) {
    ls != [] ==>
      && OneListener(cfg, ls[..|ls| - 1])
      && (ls[|ls| - 1].Broadcast? ==> NoBroadcast(Exec(cfg, ls[..|ls| - 1])))
  }

  predicate OneAtATime(s: State) {
    && (forall a, b | a in s.casts && b in s.casts && !s.casts[a].pc.Finished? && !s.casts[b].pc.Finished? :: a == b)
    && (forall t | t in s.casts && s.casts[t].pc.Send? :: s.casts[t].pc.client !in s.casts[t].pc.rest)
  }

  /** The broadcasts, of all that there were, that found the client in the map. */
  function Window(c: Client, log: seq<JobEvent>): seq<JobEvent>
    requires WindowOk(c, |log|)
  {
    if c.since.None? then [] else log[c.since.value..if c.until.Some? then c.until.value else |log|]
  }

  /** The broadcasts for the user of client `t` while it was in the map. */
  function Sent(s: State, t: Tid): seq<JobEvent>
    requires t in s.chans && WindowOk(s.chans[t], |s.log|) && t in s.handlers
  {
    EventsFor(Window(s.chans[t], s.log), s.handlers[t].user)
  }

  /** A client has been visited by every broadcast sent to it, but for the one that is on its way. */
  predicate VisitedByAll(s: State, t: Tid)
    requires t in s.chans && WindowOk(s.chans[t], |s.log|) && t in s.handlers
  {
    && (forall b | b in s.casts && t in s.casts[b].pc.Ahead() :: Sent(s, t) == s.chans[t].visits + [s.casts[b].event])
    && ((forall b | b in s.casts :: t !in s.casts[b].pc.Ahead()) ==> Sent(s, t) == s.chans[t].visits)
  }

  predicate AllVisited(cfg: Config, s: State)
    requires ClientsOk(cfg, s)
  {
    forall t | t in s.chans :: VisitedByAll(s, t)
  }

  /** Nothing that concerns client `c` has changed. */
  predicate SameFor(s: State, u: State, c: Tid) {
    && c in s.chans && c in u.chans && c in s.handlers && c in u.handlers
    && WindowOk(s.chans[c], |s.log|) && WindowOk(u.chans[c], |u.log|)
    && u.chans[c].visits == s.chans[c].visits && Sent(u, c) == Sent(s, c)
    && (forall b | b in s.casts :: b in u.casts && u.casts[b] == s.casts[b])
    && (forall b | b in u.casts && b !in s.casts :: u.casts[b].pc.RLock?)
  }

  lemma StillVisited(s: State, u: State, c: Tid)
    requires SameFor(s, u, c) && VisitedByAll(s, c)
    ensures VisitedByAll(u, c)
  {
  }

  /** Entering the map and leaving it make no difference to what was sent; a new client was sent nothing. */
  lemma HandleSame(cfg: Config, s: State, u: State, t: Tid, c: Tid)
    requires HandleShape(s, u, t) && ClientsOk(cfg, s) && ClientsOk(cfg, u)
    requires c in u.chans && c in s.chans
    ensures SameFor(s, u, c)
  {
    assert ClientFine(cfg, s.chans[c], s.handlers[c], |s.log|) && ClientFine(cfg, u.chans[c], u.handlers[c], |u.log|);
    HandleSameClient(s, u, t, c);
    SameWindow(s.chans[c], u.chans[c], s.log);
  }

  /** What a step of handler `t` leaves of a client: its visits, and whether it was in the map for which broadcasts. */
  lemma HandleSameClient(s: State, u: State, t: Tid, c: Tid)
    requires HandleShape(s, u, t) && c in u.chans && c in s.chans && c in s.handlers
    requires s.chans[c].since.Some? == s.handlers[c].pc.Entered() && s.chans[c].until.Some? == s.handlers[c].pc.Departed()
    ensures u.log == s.log && u.casts == s.casts && u.chans[c].visits == s.chans[c].visits
    ensures c in u.handlers && u.handlers[c].user == s.handlers[c].user
    ensures var a, b := s.chans[c], u.chans[c];
            && (b.since == a.since || (a.since.None? && b.since == Some(|s.log|) && b.until.None?))
            && (b.until == a.until || (a.until.None? && b.until == Some(|s.log|)))
  {
  }

  /** A client that enters or leaves the map now was in it for the same broadcasts as if it stayed. */
  lemma SameWindow(c: Client, d: Client, log: seq<JobEvent>)
    requires WindowOk(c, |log|) && WindowOk(d, |log|)
    requires d.since == c.since || (c.since.None? && d.since == Some(|log|) && d.until.None?)
    requires d.until == c.until || (c.until.None? && d.until == Some(|log|))
    ensures Window(d, log) == Window(c, log)
  {
  }

  lemma NewVisited(cfg: Config, s: State, u: State, t: Tid)
    requires HandleShape(s, u, t) && AheadOk(s) && t !in s.chans && t in u.chans && s.handlers[t].pc.LoadActive? && ClientsOk(cfg, u)
    ensures VisitedByAll(u, t)
  {
    assert u.chans[t] == NewClient;
    assert forall b | b in s.casts :: t !in s.casts[b].pc.Ahead();
  }

  lemma HandleVisited(cfg: Config, s: State, t: Tid)
    requires ClientsOk(cfg, s) && Safe(s) && AllVisited(cfg, s) && Enabled(cfg, s, Handle(t))
    ensures ClientsOk(cfg, HandleStep(cfg, s, t)) && AllVisited(cfg, HandleStep(cfg, s, t))
  {
    HandleClientsOk(cfg, s, t);
    var u := HandleStep(cfg, s, t);
    forall c | c in u.chans ensures VisitedByAll(u, c) {
      if c in s.chans {
        HandleSame(cfg, s, u, t, c);
        StillVisited(s, u, c);
      } else {
        NewVisited(cfg, s, u, t);
      }
    }
  }

  /** A broadcast looks up its clients: it is now on its way to each registered client of its user. */
  lemma LookUpVisited(cfg: Config, s: State, t: Tid, client: Tid, choice: Choice)
    requires ClientsOk(cfg, s) && Safe(s) && AllVisited(cfg, s) && OneAtATime(s)
    requires Enabled(cfg, s, StepCast(t, client, choice)) && s.casts[t].pc.LookUp?
    ensures var u := CastStep(cfg, s, t, client, choice); ClientsOk(cfg, u) && AllVisited(cfg, u)
  {
    CastClientsOk(cfg, s, t, client, choice);
    LookUpGoes(cfg, s, t, client, choice);
    var u := CastStep(cfg, s, t, client, choice);
    forall c | c in u.chans ensures VisitedByAll(u, c) {
      assert VisitedByAll(s, c) && ClientFine(cfg, s.chans[c], s.handlers[c], |s.log|);
      assert c in ClientsOf(s.clients, s.casts[t].event.userId) <==>
             s.handlers[c].user == s.casts[t].event.userId && s.handlers[c].pc.Registered();
      LookUpOne(s, u, t, c);
    }
  }

  lemma LookUpGoes(cfg: Config, s: State, t: Tid, client: Tid, choice: Choice)
    requires Enabled(cfg, s, StepCast(t, client, choice)) && s.casts[t].pc.LookUp?
    ensures var e := s.casts[t].event;
            CastStep(cfg, s, t, client, choice) ==
            s.(casts := s.casts[t := Cast(e, Next(ClientsOf(s.clients, e.userId)))], log := s.log + [e])
  {
  }

  lemma LookUpOne(s: State, u: State, t: Tid, c: Tid)
    requires OneAtATime(s) && t in s.casts && s.casts[t].pc.LookUp?
    requires var e := s.casts[t].event;
             u == s.(casts := s.casts[t := Cast(e, Next(ClientsOf(s.clients, e.userId)))], log := s.log + [e])
    requires c in s.chans && c in s.handlers && WindowOk(s.chans[c], |s.log|) && VisitedByAll(s, c)
    requires s.chans[c].since.Some? == s.handlers[c].pc.Entered() && s.chans[c].until.Some? == s.handlers[c].pc.Departed()
    requires c in ClientsOf(s.clients, s.casts[t].event.userId) <==>
             s.handlers[c].user == s.casts[t].event.userId && s.handlers[c].pc.Registered()
    ensures VisitedByAll(u, c)
  {
    LookedUp(s, u, t, c);
  }

  lemma LookedUp(s: State, u: State, t: Tid, c: Tid)
    requires OneAtATime(s) && t in s.casts && s.casts[t].pc.LookUp? && t in u.casts
    requires u.casts == s.casts[t := u.casts[t]] && u.casts[t].event == s.casts[t].event
    requires c in s.chans && c in u.chans && u.chans == s.chans && c in s.handlers && u.handlers == s.handlers
    requires WindowOk(s.chans[c], |s.log|) && u.log == s.log + [s.casts[t].event] && VisitedByAll(s, c)
    requires s.chans[c].since.Some? && s.chans[c].until.None? <==> s.handlers[c].pc.Registered()
    requires c in u.casts[t].pc.Ahead() <==> s.handlers[c].user == s.casts[t].event.userId && s.handlers[c].pc.Registered()
    ensures VisitedByAll(u, c)
  {
    var e := s.casts[t].event;
    assert forall b | b in s.casts && b != t :: s.casts[b].pc.Finished?;
    assert forall b | b in s.casts :: c !in s.casts[b].pc.Ahead();
    if s.handlers[c].pc.Registered() {
      assert Window(u.chans[c], u.log) == Window(s.chans[c], s.log) + [e];
      EventsForSnoc(Window(s.chans[c], s.log), e, s.handlers[c].user);
    } else {
      assert Window(u.chans[c], u.log) == Window(s.chans[c], s.log);
    }
  }

  /** A broadcast visits a client, or takes the next one in hand. */
  lemma VisitVisited(cfg: Config, s: State, t: Tid, client: Tid, choice: Choice)
    requires ClientsOk(cfg, s) && Safe(s) && AllVisited(cfg, s) && OneAtATime(s)
    requires Enabled(cfg, s, StepCast(t, client, choice)) && !s.casts[t].pc.LookUp?
    ensures var u := CastStep(cfg, s, t, client, choice); ClientsOk(cfg, u) && AllVisited(cfg, u)
  {
    CastClientsOk(cfg, s, t, client, choice);
    var u := CastStep(cfg, s, t, client, choice);
    CastKeepsClients(cfg, s, t, client, choice);
    forall c | c in u.chans ensures VisitedByAll(u, c) {
      VisitOne(cfg, s, t, client, choice, c);
    }
  }

  lemma VisitOne(cfg: Config, s: State, t: Tid, client: Tid, choice: Choice, c: Tid)
    requires ClientsOk(cfg, s) && Safe(s) && AllVisited(cfg, s) && OneAtATime(s) && c in s.chans
    requires Enabled(cfg, s, StepCast(t, client, choice)) && !s.casts[t].pc.LookUp?
    ensures var u := CastStep(cfg, s, t, client, choice); c in u.chans && c in u.handlers && WindowOk(u.chans[c], |u.log|) && VisitedByAll(u, c)
  {
    assert VisitedByAll(s, c) && ClientFine(cfg, s.chans[c], s.handlers[c], |s.log|);
    CastOnClient(cfg, s, t, client, choice, c);
    OneClient(s, CastStep(cfg, s, t, client, choice), t, c);
  }

  lemma CastKeepsClients(cfg: Config, s: State, t: Tid, client: Tid, choice: Choice)
    requires Enabled(cfg, s, StepCast(t, client, choice))
    ensures CastStep(cfg, s, t, client, choice).chans.Keys == s.chans.Keys
  {
  }

  /** What a step of the broadcast `t` means for client `c`. */
  predicate ClientMove(s: State, u: State, t: Tid, c: Tid) {
    && t in s.casts && t in u.casts && u.casts == s.casts[t := u.casts[t]] && u.casts[t].event == s.casts[t].event
    && c in s.chans && c in u.chans && c in s.handlers && u.handlers == s.handlers && u.log == s.log
    && u.chans[c].since == s.chans[c].since && u.chans[c].until == s.chans[c].until
    && ((c in u.casts[t].pc.Ahead() && c in s.casts[t].pc.Ahead() && u.chans[c].visits == s.chans[c].visits)
        || (c !in u.casts[t].pc.Ahead() && c !in s.casts[t].pc.Ahead() && u.chans[c].visits == s.chans[c].visits)
        || (c !in u.casts[t].pc.Ahead() && c in s.casts[t].pc.Ahead() && u.chans[c].visits == s.chans[c].visits + [s.casts[t].event]))
  }

  lemma SendOnClient(cfg: Config, s: State, t: Tid, client: Tid, choice: Choice, c: Tid)
    requires AheadOk(s) && ChannelsOk(s) && OneAtATime(s) && Enabled(cfg, s, StepCast(t, client, choice)) && s.casts[t].pc.Send?
    requires c in s.chans && c in s.handlers
    ensures ClientMove(s, CastStep(cfg, s, t, client, choice), t, c)
  {
    assert s.casts[t].pc.client in s.casts[t].pc.Ahead();
  }

  lemma NextOnClient(cfg: Config, s: State, t: Tid, client: Tid, choice: Choice, c: Tid)
    requires Enabled(cfg, s, StepCast(t, client, choice)) && s.casts[t].pc.Next?
    requires c in s.chans && c in s.handlers
    ensures ClientMove(s, CastStep(cfg, s, t, client, choice), t, c)
  {
  }

  lemma CastOnClient(cfg: Config, s: State, t: Tid, client: Tid, choice: Choice, c: Tid)
    requires Safe(s) && OneAtATime(s) && Enabled(cfg, s, StepCast(t, client, choice)) && !s.casts[t].pc.LookUp?
    requires c in s.chans && c in s.handlers
    ensures ClientMove(s, CastStep(cfg, s, t, client, choice), t, c)
  {
    if s.casts[t].pc.Send? {
      SendOnClient(cfg, s, t, client, choice, c);
    } else if s.casts[t].pc.Next? {
      NextOnClient(cfg, s, t, client, choice, c);
    }
  }

  lemma OneClient(s: State, u: State, t: Tid, c: Tid)
    requires ClientMove(s, u, t, c) && OneAtATime(s) && WindowOk(s.chans[c], |s.log|) && VisitedByAll(s, c)
    requires s.casts[t].pc.Finished? ==> u.casts[t].pc == s.casts[t].pc
    ensures VisitedByAll(u, c)
  {
    assert Sent(u, c) == Sent(s, c);
    if c in s.casts[t].pc.Ahead() {
      assert forall b | b in s.casts && b != t :: s.casts[b].pc.Finished?;
    } else {
      assert forall b | b in s.casts :: c in s.casts[b].pc.Ahead() <==> c in u.casts[b].pc.Ahead();
    }
  }

  lemma VisitedStep(cfg: Config, s: State, l: Label)
    requires ClientsOk(cfg, s) && Safe(s) && AllVisited(cfg, s) && OneAtATime(s) && Enabled(cfg, s, l)
    requires l.Broadcast? ==> NoBroadcast(s)
    ensures ClientsOk(cfg, Apply(cfg, s, l)) && AllVisited(cfg, Apply(cfg, s, l))
  {
    match l
    case Handle(t) => HandleVisited(cfg, s, t);
    case StepCast(t, client, choice) =>
      if s.casts[t].pc.LookUp? {
        LookUpVisited(cfg, s, t, client, choice);
      } else {
        VisitVisited(cfg, s, t, client, choice);
      }
    case _ => OtherVisited(cfg, s, l);
  }

  lemma OtherVisited(cfg: Config, s: State, l: Label)
    requires ClientsOk(cfg, s) && Safe(s) && AllVisited(cfg, s) && Enabled(cfg, s, l)
    requires l.Connect? || l.Take? || l.Leave? || (l.Broadcast? && NoBroadcast(s))
    ensures ClientsOk(cfg, Apply(cfg, s, l)) && AllVisited(cfg, Apply(cfg, s, l))
  {
    ClientsOkStep(cfg, s, l);
    var u := Apply(cfg, s, l);
    forall c | c in u.chans ensures VisitedByAll(u, c) {
      OtherSame(cfg, s, l, c);
      StillVisited(s, u, c);
    }
  }

  lemma OtherSame(cfg: Config, s: State, l: Label, c: Tid)
    requires ClientsOk(cfg, s) && Enabled(cfg, s, l) && (l.Connect? || l.Take? || l.Leave? || l.Broadcast?)
    requires c in Apply(cfg, s, l).chans
    ensures SameFor(s, Apply(cfg, s, l), c)
  {
    assert ClientFine(cfg, s.chans[c], s.handlers[c], |s.log|);
  }

  lemma OneAtATimeStep(cfg: Config, s: State, l: Label)
    requires OneAtATime(s) && Enabled(cfg, s, l) && (l.Broadcast? ==> NoBroadcast(s))
    ensures OneAtATime(Apply(cfg, s, l))
  {
    var u := Apply(cfg, s, l);
    if l.StepCast? {
      CastKeepsTurn(cfg, s, l.t, l.client, l.choice);
    } else if l.Handle? {
      HandlersDoNotCast(cfg, s, l.t);
    }
  }

  lemma CastKeepsTurn(cfg: Config, s: State, t: Tid, client: Tid, choice: Choice)
    requires OneAtATime(s) && Enabled(cfg, s, StepCast(t, client, choice))
    ensures OneAtATime(CastStep(cfg, s, t, client, choice))
  {
    var pc := CastGoes(cfg, s, t, client, choice);
  }

  lemma {:induction false} VisitedAlways(cfg: Config, ls: seq<Label>)
    requires Run(cfg, ls) && OneListener(cfg, ls)
    ensures ClientsOk(cfg, Exec(cfg, ls)) && AllVisited(cfg, Exec(cfg, ls)) && OneAtATime(Exec(cfg, ls))
  {
    if ls != [] {
      var before, l := ls[..|ls| - 1], ls[|ls| - 1];
      VisitedAlways(cfg, before);
      SafeAlways(cfg, before);
      VisitedStep(cfg, Exec(cfg, before), l);
      OneAtATimeStep(cfg, Exec(cfg, before), l);
    }
  }

  ghost predicate ListenerReaches(cfg: Config, s: State) {
    exists ls :: Run(cfg, ls) && OneListener(cfg, ls) && Exec(cfg, ls) == s
  }

  /** A broadcast has looked up client `t` and not visited it yet. */
  predicate OnItsWay(s: State, t: Tid) {
    exists b :: b in s.casts && t in s.casts[b].pc.Ahead()
  }

  /**
    With the one listener that the broker has, every client, at every moment, has been visited by exactly the
    broadcasts for its user between its entry into the map and its leaving, in order and once, but for the last one
    while that is on its way. So what it received is an in-order selection of them, what is missing was dropped or
    skipped or is on its way, and with nothing missing it received them all. A client that is not leaving and was sent
    no more than its buffer holds misses nothing, however slow its reader is.
  */
  lemma CompleteDelivery(cfg: Config, s: State, t: Tid)
    requires ListenerReaches(cfg, s) && t in s.chans
    ensures t in s.handlers && WindowOk(s.chans[t], |s.log|)
    ensures s.chans[t].since.Some? <==> s.handlers[t].pc.Entered()
    ensures s.chans[t].until.Some? <==> s.handlers[t].pc.Departed()
    ensures var c, late := s.chans[t], if OnItsWay(s, t) then 1 else 0;
            && Subsequence(Received(c), Sent(s, t))
            && |Received(c)| + c.dropped + c.skipped + late == |Sent(s, t)|
            && c.visits == Sent(s, t)[..|Sent(s, t)| - late]
            && (c.dropped == 0 && c.skipped == 0 ==> Received(c) == Sent(s, t)[..|Sent(s, t)| - late])
            && (|Sent(s, t)| <= cfg.clientBuffer && !c.doneClosed ==> c.dropped == 0 && c.skipped == 0)
  {
    var ls :| Run(cfg, ls) && OneListener(cfg, ls) && Exec(cfg, ls) == s;
    VisitedAlways(cfg, ls);
    VisitedReceived(cfg, s, t);
  }

  lemma VisitedReceived(cfg: Config, s: State, t: Tid)
    requires ClientsOk(cfg, s) && t in s.chans && VisitedByAll(s, t)
    ensures var c, late := s.chans[t], if OnItsWay(s, t) then 1 else 0;
            && Subsequence(Received(c), Sent(s, t))
            && |Received(c)| + c.dropped + c.skipped + late == |Sent(s, t)|
            && c.visits == Sent(s, t)[..|Sent(s, t)| - late]
            && (c.dropped == 0 && c.skipped == 0 ==> Received(c) == Sent(s, t)[..|Sent(s, t)| - late])
            && (|Sent(s, t)| <= cfg.clientBuffer && !c.doneClosed ==> c.dropped == 0 && c.skipped == 0)
  {
    var c := s.chans[t];
    assert ClientFine(cfg, c, s.handlers[t], |s.log|);
    if OnItsWay(s, t) {
      var b :| b in s.casts && t in s.casts[b].pc.Ahead();
      SubsequenceSnoc(Received(c), c.visits, s.casts[b].event);
    } else {
      assert Sent(s, t)[..|Sent(s, t)|] == Sent(s, t);
    }
  }
}
