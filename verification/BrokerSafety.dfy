/** What the lock of the SSE broker protects: no send on a closed channel, no channel closed twice. */
module BrokerSafety {
  import opened Domain
  import opened Broker

  /** The reader-writer lock excludes. */
  predicate LockOk(s: State) {
    && (s.writer.Some? ==> s.readers == {} && s.writer.value in s.handlers && s.handlers[s.writer.value].pc.Writing())
    && (forall t | t in s.handlers && s.handlers[t].pc.Writing() :: s.writer == Some(t))
    && (forall t | t in s.readers :: t in s.casts && s.casts[t].pc.Reading())
    && (forall t | t in s.casts && s.casts[t].pc.Reading() :: t in s.readers)
  }

  /** The client map holds exactly the registered handlers, each under its own user. */
  ghost predicate MembersOk(s: State) {
    forall user, t :: t in ClientsOf(s.clients, user) <==>
      t in s.handlers && s.handlers[t].user == user && s.handlers[t].pc.Registered()
  }

  /** A user with an empty set of clients is being worked on by the holder of the write lock. */
  predicate NoEmptySet(s: State) {
    forall user | user in s.clients && s.clients[user] == {} ::
      s.writer.Some? && s.writer.value in s.handlers && s.handlers[s.writer.value].user == user
      && (s.handlers[s.writer.value].pc.Insert? || s.handlers[s.writer.value].pc.Prune?)
  }

  predicate NeedsKey(pc: HandlerPc) { pc.Insert? || pc.Prune? || pc.Registered() }

  predicate KeysOk(s: State) {
    forall t | t in s.handlers && NeedsKey(s.handlers[t].pc) :: s.handlers[t].user in s.clients
  }

  ghost predicate RegistryOk(s: State) { MembersOk(s) && NoEmptySet(s) && KeysOk(s) }

  /** Channels are closed exactly where the handler says. */
  predicate ChannelsOk(s: State) {
    && (forall t | t in s.handlers && s.handlers[t].pc.HasClient() :: t in s.chans)
    && (forall t | t in s.chans :: t in s.handlers && s.handlers[t].pc.HasClient())
    && (forall t | t in s.chans ::
          && s.chans[t].doneClosed == s.handlers[t].pc.DoneClosed()
          && s.chans[t].eventsClosed == s.handlers[t].pc.EventsClosed())
  }

  /** The clients ahead of a broadcast are registered clients of its user. */
  predicate AheadOk(s: State) {
    forall t, c | t in s.casts && c in s.casts[t].pc.Ahead() ::
      c in s.handlers && s.handlers[c].pc.Registered() && s.handlers[c].user == s.casts[t].event.userId
  }

  ghost predicate Safe(s: State) {
    LockOk(s) && RegistryOk(s) && ChannelsOk(s) && AheadOk(s) && !s.panicked && s.handlers.Keys !! s.casts.Keys
  }

  /** Where the next operation takes a handler. */
  function NextPc(cfg: Config, s: State, t: Tid): HandlerPc
    requires t in s.handlers
  {
    match s.handlers[t].pc
    case LoadActive => if s.active >= cfg.maxConnections then Refused else Lock
    case Lock => MakeSet
    case MakeSet => Insert
    case Insert => Unlock
    case Unlock => AddOne
    case AddOne => Streaming
    case CloseDone => LockAgain
    case LockAgain => Delete
    case Delete => if s.handlers[t].user in s.clients then Prune else UnlockAgain
    case Prune => UnlockAgain
    case UnlockAgain => CloseEvents
    case CloseEvents => SubtractOne
    case _ => Gone
  }

  /** A step moves the handler itself and no other. */
  lemma HandlerGoes(cfg: Config, s: State, t: Tid)
    requires Enabled(cfg, s, Handle(t))
    ensures HandleStep(cfg, s, t).handlers == Goto(s, t, NextPc(cfg, s, t))
  {
  }

  lemma HandlersDoNotCast(cfg: Config, s: State, x: Tid)
    requires Enabled(cfg, s, Handle(x))
    ensures HandleStep(cfg, s, x).casts == s.casts
  {
  }

  lemma HandleLock(cfg: Config, s: State, t: Tid)
    requires LockOk(s) && Enabled(cfg, s, Handle(t))
    ensures LockOk(HandleStep(cfg, s, t))
  {
    var u, pc, pc' := HandleStep(cfg, s, t), s.handlers[t].pc, NextPc(cfg, s, t);
    HandlerGoes(cfg, s, t);
    HandlersDoNotCast(cfg, s, t);
    HandleTakesLock(cfg, s, t);
    LockMoves(s, u, t, pc, pc');
  }

  lemma HandleTakesLock(cfg: Config, s: State, t: Tid)
    requires Enabled(cfg, s, Handle(t))
    ensures var u, pc := HandleStep(cfg, s, t), s.handlers[t].pc;
            && u.readers == s.readers
            && if pc.Lock? || pc.LockAgain? then Unlocked(s) && u.writer == Some(t)
               else if pc.Unlock? || pc.UnlockAgain? then u.writer == None
               else u.writer == s.writer
  {
  }

  /** A handler takes the lock when it is free, keeps it, gives it back, or has nothing to do with it. */
  lemma LockMoves(s: State, u: State, t: Tid, pc: HandlerPc, pc': HandlerPc)
    requires LockOk(s) && t in s.handlers && s.handlers[t].pc == pc
    requires u.readers == s.readers && u.casts == s.casts
    requires t in u.handlers && u.handlers == s.handlers[t := u.handlers[t]] && u.handlers[t].pc == pc'
    requires if pc'.Writing() && !pc.Writing() then Unlocked(s) && u.writer == Some(t)
             else if pc.Writing() && !pc'.Writing() then u.writer == None
             else u.writer == s.writer
    ensures LockOk(u)
  {
  }

  /** What a step of handler `t` does to the client map: only its own user's entry changes. */
  ghost predicate ClientsMove(s: State, u: State, t: Tid, user: UserId, pc: HandlerPc, pc': HandlerPc) {
    && s.handlers.Keys == u.handlers.Keys && t in s.handlers && s.handlers[t] == Handler(user, pc)
    && u.handlers == s.handlers[t := Handler(user, pc')]
    && ClientsOf(u.clients, user) ==
       (if pc.Insert? then ClientsOf(s.clients, user) + {t} else if pc.Delete? then ClientsOf(s.clients, user) - {t} else ClientsOf(s.clients, user))
    && (forall o | o != user :: (o in u.clients <==> o in s.clients) && ClientsOf(u.clients, o) == ClientsOf(s.clients, o))
    && pc'.Registered() == (pc.Insert? || (pc.Registered() && !pc.Delete?))
    && (user in u.clients <==> if pc.MakeSet? then true else user in s.clients && !(pc.Prune? && s.clients[user] == {}))
    && (NeedsKey(pc') ==> user in u.clients)
    && (pc.Insert? ==> !pc'.Insert? && !pc'.Prune?) && (pc.Prune? ==> !pc'.Insert? && !pc'.Prune?)
    && (pc.MakeSet? ==> pc'.Insert?) && (pc.Delete? ==> pc'.Prune?)
    && u.writer == (if pc'.Writing() then Some(t) else if pc.Writing() then None else s.writer)
    && (pc'.Writing() && !pc.Writing() ==> s.writer.None?)
  }

  lemma HandleClientsQuiet(cfg: Config, s: State, t: Tid)
    requires Enabled(cfg, s, Handle(t))
    requires var pc := s.handlers[t].pc; !pc.MakeSet? && !pc.Insert? && !pc.Delete? && !pc.Prune?
    requires NeedsKey(s.handlers[t].pc) ==> s.handlers[t].user in s.clients
    requires s.handlers[t].pc.Writing() ==> s.writer == Some(t)
    ensures var u := HandleStep(cfg, s, t); t in u.handlers && ClientsMove(s, u, t, s.handlers[t].user, s.handlers[t].pc, u.handlers[t].pc)
  {
    var u, pc' := HandleStep(cfg, s, t), NextPc(cfg, s, t);
    HandlerGoes(cfg, s, t);
    assert u.clients == s.clients;
  }

  lemma HandleClients(cfg: Config, s: State, t: Tid)
    requires Enabled(cfg, s, Handle(t))
    requires NeedsKey(s.handlers[t].pc) ==> s.handlers[t].user in s.clients
    requires s.handlers[t].pc.Writing() ==> s.writer == Some(t)
    ensures var u := HandleStep(cfg, s, t); t in u.handlers && ClientsMove(s, u, t, s.handlers[t].user, s.handlers[t].pc, u.handlers[t].pc)
  {
    var pc := s.handlers[t].pc;
    if !pc.MakeSet? && !pc.Insert? && !pc.Delete? && !pc.Prune? {
      HandleClientsQuiet(cfg, s, t);
    }
  }

  lemma MembersMove(s: State, u: State, t: Tid, user: UserId, pc: HandlerPc, pc': HandlerPc)
    requires MembersOk(s) && ClientsMove(s, u, t, user, pc, pc')
    ensures MembersOk(u)
  {
    forall o, c
      ensures c in ClientsOf(u.clients, o) <==> c in u.handlers && u.handlers[c].user == o && u.handlers[c].pc.Registered()
    {
      assert c in ClientsOf(s.clients, o) <==> c in s.handlers && s.handlers[c].user == o && s.handlers[c].pc.Registered();
    }
  }

  lemma KeysMove(s: State, u: State, t: Tid, user: UserId, pc: HandlerPc, pc': HandlerPc)
    requires KeysOk(s) && MembersOk(s) && LockOk(s) && ClientsMove(s, u, t, user, pc, pc')
    ensures KeysOk(u)
  {
    forall c | c in u.handlers && NeedsKey(u.handlers[c].pc) ensures u.handlers[c].user in u.clients {
      if c != t {
        assert s.handlers[c].user in s.clients;
        if pc.Prune? && s.handlers[c].user == user {
          assert s.writer == Some(t);
          assert s.handlers[c].pc.Registered() ==> c in ClientsOf(s.clients, user);
        }
      }
    }
  }

  lemma EmptyMove(s: State, u: State, t: Tid, user: UserId, pc: HandlerPc, pc': HandlerPc)
    requires NoEmptySet(s) && LockOk(s) && ClientsMove(s, u, t, user, pc, pc')
    ensures NoEmptySet(u)
  {
    assert pc.Insert? ==> t in ClientsOf(u.clients, user);
    forall o | o in u.clients && u.clients[o] == {}
      ensures u.writer.Some? && u.writer.value in u.handlers && u.handlers[u.writer.value].user == o
              && (u.handlers[u.writer.value].pc.Insert? || u.handlers[u.writer.value].pc.Prune?)
    {
      if o != user {
        assert ClientsOf(s.clients, o) == {};
      }
    }
  }

  lemma HandleRegistry(cfg: Config, s: State, t: Tid)
    requires LockOk(s) && RegistryOk(s) && Enabled(cfg, s, Handle(t))
    ensures RegistryOk(HandleStep(cfg, s, t))
  {
    var u, pc, user := HandleStep(cfg, s, t), s.handlers[t].pc, s.handlers[t].user;
    HandleClients(cfg, s, t);
    MembersMove(s, u, t, user, pc, u.handlers[t].pc);
    KeysMove(s, u, t, user, pc, u.handlers[t].pc);
    EmptyMove(s, u, t, user, pc, u.handlers[t].pc);
  }

  /** What a step of handler `t` does to the channels: only its own client changes. */
  predicate ChannelsMove(s: State, u: State, t: Tid, pc: HandlerPc, pc': HandlerPc) {
    && t in s.handlers && t in u.handlers && s.handlers[t].pc == pc && u.handlers == s.handlers[t := u.handlers[t]] && u.handlers[t].pc == pc'
    && (if pc'.HasClient() then
          && t in u.chans && u.chans == s.chans[t := u.chans[t]]
          && u.chans[t].doneClosed == pc'.DoneClosed() && u.chans[t].eventsClosed == pc'.EventsClosed()
        else u.chans == s.chans && !pc.HasClient())
  }

  lemma HandleChannels(cfg: Config, s: State, t: Tid)
    requires Enabled(cfg, s, Handle(t))
    requires t in s.chans ==> s.chans[t].doneClosed == s.handlers[t].pc.DoneClosed() && s.chans[t].eventsClosed == s.handlers[t].pc.EventsClosed()
    requires s.handlers[t].pc.HasClient() ==> t in s.chans
    ensures var u := HandleStep(cfg, s, t);
            t in u.handlers && ChannelsMove(s, u, t, s.handlers[t].pc, u.handlers[t].pc) && u.panicked == s.panicked && u.casts == s.casts
  {
    var u, pc' := HandleStep(cfg, s, t), NextPc(cfg, s, t);
    HandlerGoes(cfg, s, t);
    HandlersDoNotCast(cfg, s, t);
    HandleChans(cfg, s, t);
  }

  predicate TouchesChannels(pc: HandlerPc) { pc.LoadActive? || pc.Insert? || pc.CloseDone? || pc.Delete? || pc.CloseEvents? }

  lemma QuietChans(cfg: Config, s: State, t: Tid)
    requires Enabled(cfg, s, Handle(t)) && !TouchesChannels(s.handlers[t].pc)
    ensures HandleStep(cfg, s, t).chans == s.chans && HandleStep(cfg, s, t).panicked == s.panicked
  {
  }

  predicate ChanMove(s: State, u: State, t: Tid, pc: HandlerPc, pc': HandlerPc) {
    && u.panicked == s.panicked
    && if pc'.HasClient() then
         && t in u.chans && u.chans == s.chans[t := u.chans[t]]
         && u.chans[t].doneClosed == pc'.DoneClosed() && u.chans[t].eventsClosed == pc'.EventsClosed()
       else u.chans == s.chans && !pc.HasClient()
  }

  lemma HandleChans(cfg: Config, s: State, t: Tid)
    requires Enabled(cfg, s, Handle(t))
    requires t in s.chans ==> s.chans[t].doneClosed == s.handlers[t].pc.DoneClosed() && s.chans[t].eventsClosed == s.handlers[t].pc.EventsClosed()
    requires s.handlers[t].pc.HasClient() ==> t in s.chans
    ensures ChanMove(s, HandleStep(cfg, s, t), t, s.handlers[t].pc, NextPc(cfg, s, t))
  {
    if !TouchesChannels(s.handlers[t].pc) {
      QuietChans(cfg, s, t);
      assert t in s.chans ==> s.chans == s.chans[t := s.chans[t]];
    } else {
      LoudChans(cfg, s, t);
    }
  }

  lemma LoudChans(cfg: Config, s: State, t: Tid)
    requires Enabled(cfg, s, Handle(t)) && TouchesChannels(s.handlers[t].pc)
    requires t in s.chans ==> s.chans[t].doneClosed == s.handlers[t].pc.DoneClosed() && s.chans[t].eventsClosed == s.handlers[t].pc.EventsClosed()
    requires s.handlers[t].pc.HasClient() ==> t in s.chans
    ensures ChanMove(s, HandleStep(cfg, s, t), t, s.handlers[t].pc, NextPc(cfg, s, t))
  {
  }

  lemma ChannelsMoved(s: State, u: State, t: Tid, pc: HandlerPc, pc': HandlerPc)
    requires ChannelsOk(s) && ChannelsMove(s, u, t, pc, pc')
    ensures ChannelsOk(u)
  {
  }

  /** Nobody reads while a client is taken out of the map. */
  lemma AheadMoved(s: State, u: State, t: Tid, user: UserId, pc: HandlerPc, pc': HandlerPc)
    requires AheadOk(s) && LockOk(s) && ClientsMove(s, u, t, user, pc, pc') && u.casts == s.casts
    ensures AheadOk(u)
  {
    if pc.Delete? {
      assert s.writer == Some(t);
      assert forall b | b in s.casts :: !s.casts[b].pc.Reading();
    }
  }

  lemma HandleSafe(cfg: Config, s: State, t: Tid)
    requires Safe(s) && Enabled(cfg, s, Handle(t))
    ensures Safe(HandleStep(cfg, s, t))
  {
    var u, pc, user := HandleStep(cfg, s, t), s.handlers[t].pc, s.handlers[t].user;
    HandleLock(cfg, s, t);
    HandleRegistry(cfg, s, t);
    HandleClients(cfg, s, t);
    HandleChannels(cfg, s, t);
    ChannelsMoved(s, u, t, pc, u.handlers[t].pc);
    AheadMoved(s, u, t, user, pc, u.handlers[t].pc);
  }

  /** Where a step takes a broadcast; the others stay where they are. */
  lemma CastGoes(cfg: Config, s: State, t: Tid, client: Tid, choice: Choice) returns (pc: CastPc)
    requires Enabled(cfg, s, StepCast(t, client, choice))
    ensures CastStep(cfg, s, t, client, choice).casts == s.casts[t := Cast(s.casts[t].event, pc)]
    ensures !s.casts[t].pc.Finished?
  {
    pc := match s.casts[t].pc
          case RLock => LookUp
          case LookUp => Next(ClientsOf(s.clients, s.casts[t].event.userId))
          case Next(rest) =>
            if rest == {} then RUnlock
            else if s.chans[client].doneClosed then Next(rest - {client})
            else Send(client, rest - {client})
          case Send(_, rest) => Next(rest)
          case _ => Finished;
  }

  /** What a step of a broadcast changes: its own program point, its read lock, and the histories of clients. */
  predicate CastMove(s: State, u: State, t: Tid, pc': CastPc) {
    && t in s.casts && u.casts == s.casts[t := s.casts[t].(pc := pc')]
    && u.clients == s.clients && u.handlers == s.handlers && u.writer == s.writer
    && u.readers == (if pc'.Reading() then s.readers + {t} else s.readers - {t})
    && (pc'.Reading() ==> s.casts[t].pc.Reading() || s.writer.None?)
    && u.chans.Keys == s.chans.Keys
    && (forall c | c in s.chans :: u.chans[c].doneClosed == s.chans[c].doneClosed && u.chans[c].eventsClosed == s.chans[c].eventsClosed)
    && pc'.Ahead() <= (if s.casts[t].pc.LookUp? then ClientsOf(s.clients, s.casts[t].event.userId) else s.casts[t].pc.Ahead())
  }

  lemma VisitKeepsChannels(c: Client, e: JobEvent, choice: Choice)
    ensures var d := Visit(c, e, choice); d.doneClosed == c.doneClosed && d.eventsClosed == c.eventsClosed
  {
  }

  lemma SendMoves(cfg: Config, s: State, t: Tid, client: Tid, choice: Choice)
    requires Enabled(cfg, s, StepCast(t, client, choice)) && s.casts[t].pc.Send? && t in s.readers
    ensures var u := CastStep(cfg, s, t, client, choice); t in u.casts && CastMove(s, u, t, u.casts[t].pc)
  {
    var u, c := CastStep(cfg, s, t, client, choice), s.casts[t].pc.client;
    VisitKeepsChannels(s.chans[c], s.casts[t].event, choice);
    assert u.chans == s.chans[c := u.chans[c]];
  }

  lemma NextMoves(cfg: Config, s: State, t: Tid, client: Tid, choice: Choice)
    requires Enabled(cfg, s, StepCast(t, client, choice)) && s.casts[t].pc.Next? && t in s.readers
    ensures var u := CastStep(cfg, s, t, client, choice); t in u.casts && CastMove(s, u, t, u.casts[t].pc)
  {
    var u := CastStep(cfg, s, t, client, choice);
    if s.casts[t].pc.rest != {} { assert u.chans == s.chans[client := u.chans[client]]; }
  }

  lemma CastMoves(cfg: Config, s: State, t: Tid, client: Tid, choice: Choice)
    requires Enabled(cfg, s, StepCast(t, client, choice))
    requires s.casts[t].pc.Reading() ==> t in s.readers
    ensures var u := CastStep(cfg, s, t, client, choice); t in u.casts && CastMove(s, u, t, u.casts[t].pc)
  {
    if s.casts[t].pc.Send? {
      SendMoves(cfg, s, t, client, choice);
    } else if s.casts[t].pc.Next? {
      NextMoves(cfg, s, t, client, choice);
    } else {
      assert CastStep(cfg, s, t, client, choice).chans == s.chans;
    }
  }

  lemma CastSafe(cfg: Config, s: State, t: Tid, client: Tid, choice: Choice)
    requires Safe(s) && Enabled(cfg, s, StepCast(t, client, choice))
    ensures Safe(CastStep(cfg, s, t, client, choice))
  {
    var u := CastStep(cfg, s, t, client, choice);
    CastMoves(cfg, s, t, client, choice);
    CastMoved(s, u, t, u.casts[t].pc);
    SendsOnOpen(cfg, s, t, client, choice);
  }

  lemma CastMoved(s: State, u: State, t: Tid, pc': CastPc)
    requires Safe(s) && CastMove(s, u, t, pc')
    ensures LockOk(u) && RegistryOk(u) && ChannelsOk(u) && AheadOk(u)
  {
    CastMovedAhead(s, u, t, pc');
  }

  lemma CastMovedAhead(s: State, u: State, t: Tid, pc': CastPc)
    requires MembersOk(s) && AheadOk(s) && CastMove(s, u, t, pc')
    ensures AheadOk(u)
  {
    assert forall c | c in ClientsOf(s.clients, s.casts[t].event.userId) :: c in s.handlers && s.handlers[c].pc.Registered();
  }

  lemma SendsOnOpen(cfg: Config, s: State, t: Tid, client: Tid, choice: Choice)
    requires AheadOk(s) && ChannelsOk(s) && !s.panicked && Enabled(cfg, s, StepCast(t, client, choice))
    ensures !CastStep(cfg, s, t, client, choice).panicked
  {
    if s.casts[t].pc.Send? {
      assert s.casts[t].pc.client in s.casts[t].pc.Ahead();
    }
  }

  lemma OtherMembers(cfg: Config, s: State, l: Label)
    requires MembersOk(s) && Enabled(cfg, s, l) && (l.Connect? || l.Take? || l.Leave? || l.Broadcast?)
    ensures MembersOk(Apply(cfg, s, l))
  {
    var u := Apply(cfg, s, l);
    assert u.clients == s.clients;
    forall o, c
      ensures c in ClientsOf(u.clients, o) <==> c in u.handlers && u.handlers[c].user == o && u.handlers[c].pc.Registered()
    {
      assert c in ClientsOf(s.clients, o) <==> c in s.handlers && s.handlers[c].user == o && s.handlers[c].pc.Registered();
    }
  }

  lemma OtherLock(cfg: Config, s: State, l: Label)
    requires LockOk(s) && NoEmptySet(s) && KeysOk(s) && Enabled(cfg, s, l) && (l.Connect? || l.Take? || l.Leave? || l.Broadcast?)
    ensures var u := Apply(cfg, s, l); LockOk(u) && NoEmptySet(u) && KeysOk(u)
  {
  }

  lemma OtherSafe(cfg: Config, s: State, l: Label)
    requires Safe(s) && Enabled(cfg, s, l) && (l.Connect? || l.Take? || l.Leave? || l.Broadcast?)
    ensures Safe(Apply(cfg, s, l))
  {
    OtherMembers(cfg, s, l);
    OtherLock(cfg, s, l);
    OtherAhead(cfg, s, l);
  }

  lemma OtherAhead(cfg: Config, s: State, l: Label)
    requires AheadOk(s) && ChannelsOk(s) && Enabled(cfg, s, l) && (l.Connect? || l.Take? || l.Leave? || l.Broadcast?)
    ensures var u := Apply(cfg, s, l); ChannelsOk(u) && AheadOk(u)
  {
    OtherChannels(cfg, s, l);
  }

  lemma OtherChannels(cfg: Config, s: State, l: Label)
    requires ChannelsOk(s) && Enabled(cfg, s, l) && (l.Connect? || l.Take? || l.Leave? || l.Broadcast?)
    ensures ChannelsOk(Apply(cfg, s, l))
  {
  }

  lemma SafeStep(cfg: Config, s: State, l: Label)
    requires Safe(s) && Enabled(cfg, s, l)
    ensures Safe(Apply(cfg, s, l))
  {
    match l
    case Handle(t) => HandleSafe(cfg, s, t);
    case StepCast(t, client, choice) => CastSafe(cfg, s, t, client, choice);
    case _ => OtherSafe(cfg, s, l);
  }

  lemma {:induction false} SafeAlways(cfg: Config, ls: seq<Label>)
    requires Run(cfg, ls)
    ensures Safe(Exec(cfg, ls))
  {
    if ls != [] {
      SafeAlways(cfg, ls[..|ls| - 1]);
      SafeStep(cfg, Exec(cfg, ls[..|ls| - 1]), ls[|ls| - 1]);
    }
  }

  /** Client `c` is in the map under this user, and its channel is open. */
  predicate OpenFor(s: State, user: UserId, c: Tid) {
    c in ClientsOf(s.clients, user) && c in s.chans && !s.chans[c].eventsClosed
  }

  /** What a broadcast has still to visit is open. */
  predicate AheadOpen(s: State) {
    forall t, c | t in s.casts && c in s.casts[t].pc.Ahead() :: OpenFor(s, s.casts[t].event.userId, c)
  }

  lemma AheadIsOpen(s: State)
    requires MembersOk(s) && ChannelsOk(s) && AheadOk(s)
    ensures AheadOpen(s)
  {
    forall t, c | t in s.casts && c in s.casts[t].pc.Ahead() ensures OpenFor(s, s.casts[t].event.userId, c) {
      assert s.handlers[c].pc.Registered();
      assert s.handlers[c].user == s.casts[t].event.userId;
    }
  }

  /**
    With any number of handlers and broadcasts in any interleaving, nothing is ever sent on a closed channel and no
    channel is closed twice: a client that a broadcast has still to visit is registered and its channel open, and
    nobody takes a client out of the map while a broadcast reads it.
  */
  lemma NeverPanics(cfg: Config, s: State)
    requires Reachable(cfg, s)
    ensures !s.panicked && AheadOpen(s)
    ensures s.readers != {} ==> s.writer.None?
  {
    var ls :| Run(cfg, ls) && Exec(cfg, ls) == s;
    SafeAlways(cfg, ls);
    AheadIsOpen(s);
  }

  /** When the lock is free, no user has an empty set of clients. */
  lemma NoEmptySets(cfg: Config, s: State, user: UserId)
    requires Reachable(cfg, s) && s.writer.None? && user in s.clients
    ensures s.clients[user] != {}
  {
    var ls :| Run(cfg, ls) && Exec(cfg, ls) == s;
    SafeAlways(cfg, ls);
  }

  // ---------------------------------------------------------------- broadcasts do not block

  /** Own steps that a broadcast past its lock still has to make, at most. */
  function StepsToGo(pc: CastPc, users: nat): nat {
    match pc
    case RLock => 2 * users + 5
    case LookUp => 2 * users + 3
    case Next(rest) => 2 * |rest| + 2
    case Send(_, rest) => 2 * |rest| + 3
    case RUnlock => 1
    case Finished => 0
  }

  lemma CastProgress(cfg: Config, s: State, t: Tid, c: Tid, o: Choice)
    requires Enabled(cfg, s, StepCast(t, c, o))
    ensures var n, u := |ClientsOf(s.clients, s.casts[t].event.userId)|, CastStep(cfg, s, t, c, o);
            t in u.casts && StepsToGo(u.casts[t].pc, n) < StepsToGo(s.casts[t].pc, n)
  {
    var pc := s.casts[t].pc;
    if pc.Next? {
      if pc.rest != {} { NextProgress(cfg, s, t, c, o); }
    }
  }

  lemma NextProgress(cfg: Config, s: State, t: Tid, c: Tid, o: Choice)
    requires Enabled(cfg, s, StepCast(t, c, o)) && s.casts[t].pc.Next? && s.casts[t].pc.rest != {}
    ensures var n, u := |ClientsOf(s.clients, s.casts[t].event.userId)|, CastStep(cfg, s, t, c, o);
            t in u.casts && StepsToGo(u.casts[t].pc, n) < StepsToGo(s.casts[t].pc, n)
  {
    assert |s.casts[t].pc.rest - {c}| == |s.casts[t].pc.rest| - 1;
  }

  /** In the loop of a broadcast the next client, if there is one, can be looked at. */
  lemma NextEnabled(cfg: Config, s: State, t: Tid) returns (client: Tid)
    requires Safe(s) && t in s.casts && s.casts[t].pc.Next?
    ensures Enabled(cfg, s, StepCast(t, client, Drop))
  {
    client := 0;
    if s.casts[t].pc.rest != {} {
      client :| client in s.casts[t].pc.rest;
      AheadIsOpen(s);
      assert OpenFor(s, s.casts[t].event.userId, client);
    }
  }

  /** The second `select` always has a case that is ready. */
  lemma SendEnabled(cfg: Config, s: State, t: Tid) returns (choice: Choice)
    requires Safe(s) && t in s.casts && s.casts[t].pc.Send?
    ensures Enabled(cfg, s, StepCast(t, 0, choice))
  {
    var client := s.casts[t].pc.client;
    AheadIsOpen(s);
    assert OpenFor(s, s.casts[t].event.userId, client);
    var c := s.chans[client];
    choice := if c.doneClosed then SeeDone else if |c.buffer| < cfg.clientBuffer then Deliver else Drop;
  }

  lemma SomeStep(cfg: Config, s: State, t: Tid) returns (client: Tid, choice: Choice)
    requires Safe(s) && t in s.casts && s.casts[t].pc.Reading()
    ensures Enabled(cfg, s, StepCast(t, client, choice))
  {
    client, choice := 0, Drop;
    if s.casts[t].pc.Next? {
      client := NextEnabled(cfg, s, t);
    } else if s.casts[t].pc.Send? {
      choice := SendEnabled(cfg, s, t);
    }
  }

  /**
    Once it has the read lock, a broadcast can always make its next step, however full the buffers are, and every
    step brings it closer to its end.
  */
  lemma BroadcastNeverBlocks(cfg: Config, s: State, t: Tid) returns (client: Tid, choice: Choice)
    requires Reachable(cfg, s) && t in s.casts && s.casts[t].pc.Reading()
    ensures Enabled(cfg, s, StepCast(t, client, choice))
    ensures var n, u := |ClientsOf(s.clients, s.casts[t].event.userId)|, CastStep(cfg, s, t, client, choice);
            t in u.casts && StepsToGo(u.casts[t].pc, n) < StepsToGo(s.casts[t].pc, n)
  {
    var ls :| Run(cfg, ls) && Exec(cfg, ls) == s;
    SafeAlways(cfg, ls);
    client, choice := SomeStep(cfg, s, t);
    CastProgress(cfg, s, t, client, choice);
  }

  /** The steps that broadcast `t` itself made. */
  function CastSteps(ls: seq<Label>, t: Tid): nat {
    if ls == [] then 0
    else
      var l := ls[|ls| - 1];
      CastSteps(ls[..|ls| - 1], t) + if l.StepCast? && l.t == t then 1 else 0
  }

  /** While anybody reads, the client map stays as it is. */
  lemma ReadersKeepMap(cfg: Config, s: State, l: Label)
    requires LockOk(s) && s.readers != {} && Enabled(cfg, s, l)
    ensures Apply(cfg, s, l).clients == s.clients
  {
    if l.Handle? {
      assert !s.handlers[l.t].pc.Writing();
    }
  }

  lemma OthersKeepCast(cfg: Config, s: State, l: Label, t: Tid)
    requires t in s.casts && Enabled(cfg, s, l) && !(l.StepCast? && l.t == t)
    ensures var u := Apply(cfg, s, l); t in u.casts && u.casts[t] == s.casts[t]
  {
    match l
    case Handle(x) => HandlersDoNotCast(cfg, s, x);
    case StepCast(x, client, choice) => var pc := CastGoes(cfg, s, x, client, choice);
    case _ =>
  }

  /** Broadcast `t` has at most `budget` own steps left; before its look-up the user has `n` clients. */
  predicate Owes(s: State, t: Tid, user: UserId, n: nat, budget: int) {
    && t in s.casts && s.casts[t].event.userId == user && !s.casts[t].pc.RLock?
    && (s.casts[t].pc.LookUp? ==> |ClientsOf(s.clients, user)| == n)
    && StepsToGo(s.casts[t].pc, n) <= budget
  }

  lemma OwesOwn(cfg: Config, s: State, t: Tid, c: Tid, o: Choice, user: UserId, n: nat, budget: int)
    requires Owes(s, t, user, n, budget) && Enabled(cfg, s, StepCast(t, c, o))
    ensures Owes(CastStep(cfg, s, t, c, o), t, user, n, budget - 1)
  {
    var u := CastStep(cfg, s, t, c, o);
    CastProgress(cfg, s, t, c, o);
    var pc := CastGoes(cfg, s, t, c, o);
    assert u.casts[t] == Cast(s.casts[t].event, pc) && !pc.RLock? && !pc.LookUp?;
    assert StepsToGo(pc, n) == StepsToGo(pc, |ClientsOf(s.clients, user)|);
    assert StepsToGo(s.casts[t].pc, n) == StepsToGo(s.casts[t].pc, |ClientsOf(s.clients, user)|);
  }

  lemma {:induction false} OwesAlways(cfg: Config, ls: seq<Label>, k: nat, t: Tid, user: UserId, n: nat, budget: int)
    requires Run(cfg, ls) && k <= |ls| && Owes(Exec(cfg, ls[..k]), t, user, n, budget)
    ensures Owes(Exec(cfg, ls), t, user, n, budget - (CastSteps(ls, t) - CastSteps(ls[..k], t)))
  {
    if k == |ls| {
      assert ls[..k] == ls;
    } else {
      var before, l := ls[..|ls| - 1], ls[|ls| - 1];
      assert before[..k] == ls[..k];
      OwesAlways(cfg, before, k, t, user, n, budget);
      SafeAlways(cfg, before);
      var s := Exec(cfg, before);
      if l.StepCast? && l.t == t {
        OwesOwn(cfg, s, t, l.client, l.choice, user, n, budget - (CastSteps(before, t) - CastSteps(ls[..k], t)));
      } else {
        OthersKeepCast(cfg, s, l, t);
        if s.casts[t].pc.LookUp? {
          assert t in s.readers;
          ReadersKeepMap(cfg, s, l);
        }
      }
    }
  }

  /**
    In every run, a broadcast that has taken the read lock makes at most two steps for each client that its user
    then has, and three more, whatever the other threads do.
  */
  lemma BroadcastBounded(cfg: Config, ls: seq<Label>, k: nat, t: Tid)
    requires Run(cfg, ls) && k <= |ls| && t in Exec(cfg, ls[..k]).casts && Exec(cfg, ls[..k]).casts[t].pc.LookUp?
    ensures var s := Exec(cfg, ls[..k]);
            CastSteps(ls, t) - CastSteps(ls[..k], t) <= 2 * |ClientsOf(s.clients, s.casts[t].event.userId)| + 3
  {
    var s := Exec(cfg, ls[..k]);
    var n := |ClientsOf(s.clients, s.casts[t].event.userId)|;
    OwesAlways(cfg, ls, k, t, s.casts[t].event.userId, n, 2 * n + 3);
  }
}
