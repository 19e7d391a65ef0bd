/**
  The code of `Subscribe`, `Unsubscribe` and `broadcast`, while any number of other threads run at every operation
  on the lock, the client map, the channels and the counter: it takes only steps of the state machine.
*/
module BrokerCode {
  import opened Domain
  import opened Broker
  import BrokerSafety

  /** A step of another thread than `t`. */
  predicate Foreign(l: Label, t: Tid) { l.t != t }

  lemma ForeignHandle(cfg: Config, s: State, x: Tid, t: Tid)
    requires Enabled(cfg, s, Handle(x)) && x != t
    ensures var u := HandleStep(cfg, s, x); (t in u.handlers <==> t in s.handlers) && (t in s.handlers ==> u.handlers[t] == s.handlers[t])
  {
    BrokerSafety.HandlerGoes(cfg, s, x);
  }

  lemma ForeignCast(cfg: Config, s: State, x: Tid, client: Tid, choice: Choice, t: Tid)
    requires Enabled(cfg, s, StepCast(x, client, choice)) && x != t
    ensures var u := CastStep(cfg, s, x, client, choice);
            u.handlers == s.handlers && (t in u.casts <==> t in s.casts) && (t in s.casts ==> u.casts[t] == s.casts[t])
  {
    var pc := BrokerSafety.CastGoes(cfg, s, x, client, choice);
  }

  lemma ForeignKeeps(cfg: Config, s: State, l: Label, t: Tid)
    requires Enabled(cfg, s, l) && Foreign(l, t)
    ensures var u := Apply(cfg, s, l);
            && (t in u.handlers <==> t in s.handlers) && (t in s.handlers ==> u.handlers[t] == s.handlers[t])
            && (t in u.casts <==> t in s.casts) && (t in s.casts ==> u.casts[t] == s.casts[t])
  {
    match l
    case Handle(x) =>
      ForeignHandle(cfg, s, x, t);
      BrokerSafety.HandlersDoNotCast(cfg, s, x);
    case StepCast(x, client, choice) => ForeignCast(cfg, s, x, client, choice, t);
    case _ =>
  }

  /** What the operations on the client map do. */
  lemma InsertDoes(cfg: Config, s: State, t: Tid)
    requires Enabled(cfg, s, Handle(t)) && s.handlers[t].pc.Insert? && s.handlers[t].user in s.clients
    ensures var u, user := Apply(cfg, s, Handle(t)), s.handlers[t].user;
            && u.clients == s.clients[user := s.clients[user] + {t}]
            && u.chans == s.chans[t := s.chans[t].(since := Some(|s.log|))]
            && u.active == s.active && u.writer == s.writer && u.readers == s.readers
            && u.handlers == Goto(s, t, Unlock)
  {
  }

  lemma DeleteDoes(cfg: Config, s: State, t: Tid)
    requires Enabled(cfg, s, Handle(t)) && s.handlers[t].pc.Delete? && s.handlers[t].user in s.clients
    ensures var u, user := Apply(cfg, s, Handle(t)), s.handlers[t].user;
            && u.clients == s.clients[user := s.clients[user] - {t}]
            && u.chans == s.chans[t := s.chans[t].(until := Some(|s.log|))]
            && u.active == s.active && u.writer == s.writer && u.readers == s.readers
            && u.handlers == Goto(s, t, Prune)
  {
  }

  lemma PruneDoes(cfg: Config, s: State, t: Tid)
    requires Enabled(cfg, s, Handle(t)) && s.handlers[t].pc.Prune? && s.handlers[t].user in s.clients
    ensures var u, user := Apply(cfg, s, Handle(t)), s.handlers[t].user;
            && u.clients == (if s.clients[user] == {} then s.clients - {user} else s.clients)
            && u.chans == s.chans
            && u.active == s.active && u.writer == s.writer && u.readers == s.readers
            && u.handlers == Goto(s, t, UnlockAgain)
  {
  }

  /** What the operations on the lock and the counter do. */
  lemma LockDoes(cfg: Config, s: State, t: Tid)
    requires Enabled(cfg, s, Handle(t)) && s.handlers[t].pc.Lock?
    ensures Apply(cfg, s, Handle(t)) == s.(handlers := Goto(s, t, MakeSet), active := s.active, writer := Some(t))
  {
  }

  lemma LockAgainDoes(cfg: Config, s: State, t: Tid)
    requires Enabled(cfg, s, Handle(t)) && s.handlers[t].pc.LockAgain?
    ensures Apply(cfg, s, Handle(t)) == s.(handlers := Goto(s, t, Delete), active := s.active, writer := Some(t))
  {
  }

  lemma UnlockDoes(cfg: Config, s: State, t: Tid)
    requires Enabled(cfg, s, Handle(t)) && s.handlers[t].pc.Unlock?
    ensures Apply(cfg, s, Handle(t)) == s.(handlers := Goto(s, t, AddOne), active := s.active, writer := None)
  {
  }

  lemma UnlockAgainDoes(cfg: Config, s: State, t: Tid)
    requires Enabled(cfg, s, Handle(t)) && s.handlers[t].pc.UnlockAgain?
    ensures Apply(cfg, s, Handle(t)) == s.(handlers := Goto(s, t, CloseEvents), active := s.active, writer := None)
  {
  }

  lemma AddDoes(cfg: Config, s: State, t: Tid)
    requires Enabled(cfg, s, Handle(t)) && s.handlers[t].pc.AddOne?
    ensures Apply(cfg, s, Handle(t)) == s.(handlers := Goto(s, t, Streaming), active := s.active + 1, writer := s.writer)
  {
  }

  lemma SubtractDoes(cfg: Config, s: State, t: Tid)
    requires Enabled(cfg, s, Handle(t)) && s.handlers[t].pc.SubtractOne?
    ensures Apply(cfg, s, Handle(t)) == s.(handlers := Goto(s, t, Gone), active := s.active - 1, writer := s.writer)
  {
  }

  /** A client that a broadcast has still to visit has its channels. */
  lemma StillThere(s: State, t: Tid, client: Tid)
    requires BrokerSafety.Safe(s) && t in s.casts && client in s.casts[t].pc.Ahead()
    ensures client in s.chans && !s.chans[client].eventsClosed
  {
    BrokerSafety.AheadIsOpen(s);
    assert BrokerSafety.OpenFor(s, s.casts[t].event.userId, client);
  }

  /** What the first `select` of a broadcast does. */
  lemma NextDoes(cfg: Config, s: State, t: Tid, client: Tid)
    requires t in s.casts && s.casts[t].pc.Next? && client in s.casts[t].pc.rest && client in s.chans
    ensures Enabled(cfg, s, StepCast(t, client, Drop))
    ensures var e, rest, c := s.casts[t].event, s.casts[t].pc.rest - {client}, s.chans[client];
            Apply(cfg, s, StepCast(t, client, Drop)) ==
            if c.doneClosed then
              s.(casts := s.casts[t := Cast(e, Next(rest))],
                 chans := s.chans[client := c.(visits := c.visits + [e], skipped := c.skipped + 1)])
            else s.(casts := s.casts[t := Cast(e, Send(client, rest))])
  {
  }

  /** How `Subscribe` ends; `Waiting` when the others never let go of the lock. */
  datatype Subscription = Connected | Full | Waiting

  class EventBroker {
    const cfg: Config
    var clients: map<UserId, set<Tid>>
    var chans: map<Tid, Client>
    var active: int
    var writer: Option<Tid>
    var readers: set<Tid>
    /** Where every thread stands, and the events broadcast so far. */
    var handlers: map<Tid, Handler>
    var casts: map<Tid, Cast>
    var log: seq<JobEvent>
    /** What the other threads want to do before each of the coming operations. */
    var schedule: seq<seq<Label>>
    /** Which of the ready cases the coming `select` statements want to take. */
    var picks: seq<Choice>
    /** The steps taken so far. */
    ghost var trace: seq<Label>

    constructor (cfg: Config, schedule: seq<seq<Label>>, picks: seq<Choice>)
      ensures Valid() && trace == [] && this.cfg == cfg && this.schedule == schedule && this.picks == picks
    {
      this.cfg := cfg;
      clients, chans, active, writer, readers := map[], map[], 0, None, {};
      handlers, casts, log := map[], map[], [];
      this.schedule, this.picks, trace := schedule, picks, [];
    }

    function Snapshot(): State
      reads this
    {
      State(clients, handlers, casts, chans, active, writer, readers, log, false)
    }

    /** What the fields hold is what the steps taken so far make of the state machine; nothing has panicked. */
    ghost predicate Valid()
      reads this
    {
      Run(cfg, trace) && Snapshot() == Exec(cfg, trace)
    }

    /** Thread `t` handles a stream for `user` and stands at `pc`. */
    ghost predicate At(t: Tid, user: UserId, pc: HandlerPc)
      reads this
    {
      Valid() && t in handlers && handlers[t] == Handler(user, pc)
    }

    /** Thread `t` broadcasts `e` and stands at `pc`. */
    ghost predicate CastAt(t: Tid, e: JobEvent, pc: CastPc)
      reads this
    {
      Valid() && t in casts && casts[t] == Cast(e, pc)
    }

    /** The state that the run `ls` makes. */
    method Load(s: State, ghost ls: seq<Label>)
      requires !s.panicked && Run(cfg, ls) && s == Exec(cfg, ls)
      modifies this`clients, this`chans, this`active, this`writer, this`readers, this`handlers, this`casts, this`log, this`trace
      ensures Valid() && trace == ls && Snapshot() == s
    {
      clients, chans, active, writer, readers := s.clients, s.chans, s.active, s.writer, s.readers;
      handlers, casts, log := s.handlers, s.casts, s.log;
      trace := ls;
    }

    method Step(l: Label)
      requires Valid() && Enabled(cfg, Snapshot(), l)
      modifies this
      ensures Valid() && trace == old(trace) + [l] && Snapshot() == Apply(cfg, old(Snapshot()), l)
      ensures schedule == old(schedule) && picks == old(picks)
    {
      RunSnoc(cfg, trace, l);
      BrokerSafety.SafeAlways(cfg, trace + [l]);
      Load(Apply(cfg, Snapshot(), l), trace + [l]);
    }

    /** The other threads run before the next operation of `t`. */
    method Others(t: Tid)
      requires Valid()
      modifies this
      ensures Valid() && old(trace) <= trace
      ensures (t in handlers <==> t in old(handlers)) && (t in handlers ==> handlers[t] == old(handlers)[t])
      ensures (t in casts <==> t in old(casts)) && (t in casts ==> casts[t] == old(casts)[t])
      ensures |schedule| <= |old(schedule)| && (old(schedule) != [] ==> |schedule| < |old(schedule)|)
      ensures BrokerSafety.Safe(Snapshot())
    {
      if schedule != [] {
        var turn := schedule[0];
        schedule := schedule[1..];
        for i := 0 to |turn|
          invariant Valid() && old(trace) <= trace && schedule == old(schedule)[1..]
          invariant (t in handlers <==> t in old(handlers)) && (t in handlers ==> handlers[t] == old(handlers)[t])
          invariant (t in casts <==> t in old(casts)) && (t in casts ==> casts[t] == old(casts)[t])
        {
          if Enabled(cfg, Snapshot(), turn[i]) && Foreign(turn[i], t) {
            ForeignKeeps(cfg, Snapshot(), turn[i], t);
            Step(turn[i]);
          }
        }
      }
      BrokerSafety.SafeAlways(cfg, trace);
    }

    /** Takes down the step `l` once the fields show its effect on the lock, the map, the channels and the counter. */
    method Record(before: State, l: Label)
      requires Run(cfg, trace) && before == Exec(cfg, trace) && Enabled(cfg, before, l)
      requires var u := Apply(cfg, before, l);
               clients == u.clients && chans == u.chans && active == u.active && writer == u.writer && readers == u.readers
      modifies this`handlers, this`casts, this`log, this`trace
      ensures Valid() && trace == old(trace) + [l] && Snapshot() == Apply(cfg, before, l)
    {
      var u := Apply(cfg, before, l);
      RunSnoc(cfg, trace, l);
      BrokerSafety.SafeAlways(cfg, trace + [l]);
      handlers, casts, log := u.handlers, u.casts, u.log;
      trace := trace + [l];
    }

    // ---------------------------------------------------------------- the lock

    /** Waits for the write lock to be free, as long as the others have something to do. */
    method AwaitUnlocked(t: Tid, user: UserId, pc: HandlerPc)
      requires At(t, user, pc)
      modifies this
      ensures At(t, user, pc) && old(trace) <= trace && BrokerSafety.Safe(Snapshot())
      ensures schedule == [] || Unlocked(Snapshot())
    {
      Others(t);
      while schedule != [] && !Unlocked(Snapshot())
        invariant At(t, user, pc) && old(trace) <= trace && BrokerSafety.Safe(Snapshot())
        decreases |schedule|
      {
        Others(t);
      }
    }

    method AcquireWrite(t: Tid, user: UserId, pc: HandlerPc) returns (got: bool)
      requires At(t, user, pc) && (pc.Lock? || pc.LockAgain?)
      modifies this
      ensures At(t, user, if !got then pc else if pc.Lock? then MakeSet else Delete) && old(trace) <= trace
      ensures !got ==> schedule == [] && !Unlocked(Snapshot())
    {
      AwaitUnlocked(t, user, pc);
      got := writer.None? && readers == {};
      if got {
        var before := Snapshot();
        writer := Some(t);
        if pc.Lock? {
          LockDoes(cfg, before, t);
        } else {
          LockAgainDoes(cfg, before, t);
        }
        Record(before, Handle(t));
      }
    }

    method ReleaseWrite(t: Tid, user: UserId, pc: HandlerPc)
      requires At(t, user, pc) && (pc.Unlock? || pc.UnlockAgain?)
      modifies this
      ensures At(t, user, if pc.Unlock? then AddOne else CloseEvents) && old(trace) <= trace
    {
      Others(t);
      var before := Snapshot();
      writer := None;
      if pc.Unlock? {
        UnlockDoes(cfg, before, t);
      } else {
        UnlockAgainDoes(cfg, before, t);
      }
      Record(before, Handle(t));
    }

    // ---------------------------------------------------------------- Subscribe

    /** The check of the capacity, outside the lock, and the new client. */
    method Admit(t: Tid, user: UserId) returns (ok: bool)
      requires At(t, user, LoadActive)
      modifies this
      ensures At(t, user, if ok then Lock else Refused) && old(trace) <= trace
    {
      Others(t);
      var before := Snapshot();
      ok := active < cfg.maxConnections;
      if ok {
        chans := chans[t := NewClient];
      }
      Record(before, Handle(t));
    }

    method EnsureSet(t: Tid, user: UserId)
      requires At(t, user, MakeSet)
      modifies this
      ensures At(t, user, Insert) && old(trace) <= trace
    {
      Others(t);
      var before := Snapshot();
      if user !in clients {
        clients := clients[user := {}];
      }
      Record(before, Handle(t));
    }

    method Register(t: Tid, user: UserId)
      requires At(t, user, Insert)
      modifies this
      ensures At(t, user, Unlock) && old(trace) <= trace
    {
      Others(t);
      var before := Snapshot();
      clients := clients[user := clients[user] + {t}];
      chans := chans[t := chans[t].(since := Some(|log|))];
      InsertDoes(cfg, before, t);
      Record(before, Handle(t));
    }

    method CountIn(t: Tid, user: UserId)
      requires At(t, user, AddOne)
      modifies this
      ensures At(t, user, Streaming) && old(trace) <= trace
    {
      Others(t);
      var before := Snapshot();
      active := active + 1;
      AddDoes(cfg, before, t);
      Record(before, Handle(t));
    }

    method CountOut(t: Tid, user: UserId)
      requires At(t, user, SubtractOne)
      modifies this
      ensures At(t, user, Gone) && old(trace) <= trace
    {
      Others(t);
      var before := Snapshot();
      active := active - 1;
      SubtractDoes(cfg, before, t);
      Record(before, Handle(t));
    }

    /** The rest of `Subscribe` once the lock is taken. */
    method Enrol(t: Tid, user: UserId)
      requires At(t, user, MakeSet)
      modifies this
      ensures At(t, user, Streaming) && old(trace) <= trace
    {
      EnsureSet(t, user);
      Register(t, user);
      ReleaseWrite(t, user, Unlock);
      CountIn(t, user);
    }

    /** Who streams is in the set of its user, and both channels are open. */
    lemma StreamingMeans(t: Tid, user: UserId)
      requires At(t, user, Streaming)
      ensures t in ClientsOf(clients, user) && t in chans && !chans[t].doneClosed && !chans[t].eventsClosed
    {
      BrokerSafety.SafeAlways(cfg, trace);
      assert BrokerSafety.Safe(Snapshot());
    }

    /** A stream opens: the client is registered and counted, or refused, or waits for a lock that is not given back. */
    method Subscribe(t: Tid, user: UserId) returns (r: Subscription)
      requires Valid() && Fresh(Snapshot(), t)
      modifies this
      ensures At(t, user, match r case Connected => Streaming case Full => Refused case Waiting => Lock) && old(trace) <= trace
      ensures r.Waiting? ==> schedule == [] && !Unlocked(Snapshot())
      ensures r.Connected? ==> t in ClientsOf(clients, user) && t in chans && !chans[t].doneClosed && !chans[t].eventsClosed
    {
      Step(Connect(t, user));
      var ok := Admit(t, user);
      if !ok {
        return Full;
      }
      var got := AcquireWrite(t, user, Lock);
      if !got {
        return Waiting;
      }
      Enrol(t, user);
      StreamingMeans(t, user);
      return Connected;
    }

    // ---------------------------------------------------------------- Unsubscribe

    /** Closes `done`, which must be open: closing it twice would panic. */
    method CloseDoneChannel(t: Tid, user: UserId)
      requires At(t, user, CloseDone)
      modifies this
      ensures At(t, user, LockAgain) && old(trace) <= trace
    {
      Others(t);
      var before := Snapshot();
      assert !chans[t].doneClosed;
      chans := chans[t := chans[t].(doneClosed := true)];
      Record(before, Handle(t));
    }

    method CloseEventsChannel(t: Tid, user: UserId)
      requires At(t, user, CloseEvents)
      modifies this
      ensures At(t, user, SubtractOne) && old(trace) <= trace
    {
      Others(t);
      var before := Snapshot();
      assert !chans[t].eventsClosed;
      chans := chans[t := chans[t].(eventsClosed := true)];
      Record(before, Handle(t));
    }

    /** Takes the client out of its user's set. */
    method Unregister(t: Tid, user: UserId)
      requires At(t, user, Delete)
      modifies this
      ensures At(t, user, Prune) && old(trace) <= trace
    {
      Others(t);
      var before := Snapshot();
      clients := clients[user := clients[user] - {t}];
      chans := chans[t := chans[t].(until := Some(|log|))];
      DeleteDoes(cfg, before, t);
      Record(before, Handle(t));
    }

    /** Takes an empty set out of the map. */
    method PruneSet(t: Tid, user: UserId)
      requires At(t, user, Prune)
      modifies this
      ensures At(t, user, UnlockAgain) && old(trace) <= trace
    {
      Others(t);
      var before := Snapshot();
      var empty := clients[user] == {};
      if empty {
        clients := clients - {user};
      }
      PruneDoes(cfg, before, t);
      Record(before, Handle(t));
    }

    /** The rest of `Unsubscribe` once the lock is taken. */
    method Withdraw(t: Tid, user: UserId)
      requires At(t, user, Delete)
      modifies this
      ensures At(t, user, Gone) && old(trace) <= trace
    {
      Unregister(t, user);
      PruneSet(t, user);
      ReleaseWrite(t, user, UnlockAgain);
      CloseEventsChannel(t, user);
      CountOut(t, user);
    }

    /** Who is gone is in no set of the map, and both channels are closed. */
    lemma GoneMeans(t: Tid, user: UserId)
      requires At(t, user, Gone)
      ensures t !in ClientsOf(clients, user) && t in chans && chans[t].doneClosed && chans[t].eventsClosed
    {
      BrokerSafety.SafeAlways(cfg, trace);
      assert BrokerSafety.Safe(Snapshot());
    }

    /** A stream ends. It leaves for good, or waits for a lock that is not given back. */
    method Unsubscribe(t: Tid, user: UserId) returns (gone: bool)
      requires At(t, user, Streaming)
      modifies this
      ensures At(t, user, if gone then Gone else LockAgain) && old(trace) <= trace
      ensures !gone ==> schedule == [] && !Unlocked(Snapshot())
      ensures gone ==> t !in ClientsOf(clients, user) && t in chans && chans[t].doneClosed && chans[t].eventsClosed
    {
      Step(Leave(t));
      CloseDoneChannel(t, user);
      gone := AcquireWrite(t, user, LockAgain);
      if gone {
        Withdraw(t, user);
        GoneMeans(t, user);
      }
    }

    // ---------------------------------------------------------------- broadcast

    method AcquireRead(t: Tid, e: JobEvent) returns (got: bool)
      requires CastAt(t, e, RLock)
      modifies this
      ensures CastAt(t, e, if got then LookUp else RLock) && old(trace) <= trace
      ensures !got ==> schedule == [] && writer.Some?
    {
      Others(t);
      while schedule != [] && writer.Some?
        invariant CastAt(t, e, RLock) && old(trace) <= trace
        decreases |schedule|
      {
        Others(t);
      }
      got := writer.None?;
      if got {
        var before := Snapshot();
        readers := readers + {t};
        Record(before, StepCast(t, 0, Drop));
      }
    }

    /** The clients of the event's user. */
    method UserClients(t: Tid, e: JobEvent) returns (found: set<Tid>)
      requires CastAt(t, e, LookUp)
      modifies this
      ensures CastAt(t, e, Next(found)) && old(trace) <= trace
    {
      Others(t);
      found := if e.userId in clients then clients[e.userId] else {};
      Record(Snapshot(), StepCast(t, 0, Drop));
    }

    /** The first `select`: is the client leaving? */
    method CheckDone(t: Tid, e: JobEvent, client: Tid, rest: set<Tid>) returns (leaving: bool)
      requires CastAt(t, e, Next(rest)) && client in rest
      modifies this
      ensures CastAt(t, e, if leaving then Next(rest - {client}) else Send(client, rest - {client})) && old(trace) <= trace
    {
      Others(t);
      var before := Snapshot();
      StillThere(before, t, client);
      leaving := chans[client].doneClosed;
      NextDoes(cfg, before, t, client);
      if leaving {
        chans := chans[client := chans[client].(visits := chans[client].visits + [e], skipped := chans[client].skipped + 1)];
      }
      Record(before, StepCast(t, client, Drop));
    }

    /** The second `select`: any case that is ready, and the default case only when none is. */
    method Choose(t: Tid, e: JobEvent, client: Tid, rest: set<Tid>) returns (choice: Choice)
      requires CastAt(t, e, Send(client, rest)) && BrokerSafety.Safe(Snapshot())
      modifies this`picks
      ensures CastAt(t, e, Send(client, rest)) && Enabled(cfg, Snapshot(), StepCast(t, client, choice))
      ensures choice.Drop? ==> client in chans && !chans[client].doneClosed && |chans[client].buffer| >= cfg.clientBuffer
      ensures choice.Deliver? ==> client in chans && !chans[client].eventsClosed
    {
      StillThere(Snapshot(), t, client);
      if picks != [] {
        choice := picks[0];
        picks := picks[1..];
        if Enabled(cfg, Snapshot(), StepCast(t, client, choice)) { return; }
      }
      var c := chans[client];
      choice := if c.doneClosed then SeeDone else if |c.buffer| < cfg.clientBuffer then Deliver else Drop;
    }

    /** What a case of the second `select` does to the client. */
    static method Select(was: Client, e: JobEvent, choice: Choice) returns (c: Client)
      requires choice.Deliver? ==> !was.eventsClosed
      ensures c == Visit(was, e, choice)
    {
      match choice {
        case SeeDone => c := was.(visits := was.visits + [e], skipped := was.skipped + 1);
        case Deliver => c := was.(visits := was.visits + [e], buffer := was.buffer + [e]);
        case HandOver => c := was.(visits := was.visits + [e], taken := was.taken + was.buffer + [e], buffer := []);
        case Drop => c := was.(visits := was.visits + [e], dropped := was.dropped + 1);
      }
    }

    method TrySend(t: Tid, e: JobEvent, client: Tid, rest: set<Tid>)
      requires CastAt(t, e, Send(client, rest))
      modifies this
      ensures CastAt(t, e, Next(rest)) && old(trace) <= trace
    {
      Others(t);
      var before := Snapshot();
      var choice := Choose(t, e, client, rest);
      var c := EventBroker.Select(chans[client], e, choice);
      chans := chans[client := c];
      Record(before, StepCast(t, client, choice));
    }

    /** The loop over the clients. */
    method VisitAll(t: Tid, e: JobEvent, found: set<Tid>)
      requires CastAt(t, e, Next(found))
      modifies this
      ensures CastAt(t, e, Next({})) && old(trace) <= trace
    {
      var rest := found;
      while rest != {}
        invariant CastAt(t, e, Next(rest)) && old(trace) <= trace
        decreases |rest|
      {
        var client :| client in rest;
        var leaving := CheckDone(t, e, client, rest);
        rest := rest - {client};
        if !leaving {
          TrySend(t, e, client, rest);
        }
      }
    }

    method EndLoop(t: Tid, e: JobEvent)
      requires CastAt(t, e, Next({}))
      modifies this
      ensures CastAt(t, e, RUnlock) && old(trace) <= trace
    {
      Others(t);
      Record(Snapshot(), StepCast(t, 0, Drop));
    }

    method ReleaseRead(t: Tid, e: JobEvent)
      requires CastAt(t, e, RUnlock)
      modifies this
      ensures CastAt(t, e, Finished) && old(trace) <= trace
    {
      Others(t);
      var before := Snapshot();
      readers := readers - {t};
      Record(before, StepCast(t, 0, Drop));
    }

    /** An event goes to every client of its user. It gets through to the end, or waits for a lock that is not given back. */
    method Broadcast(t: Tid, e: JobEvent) returns (sent: bool)
      requires Valid() && Fresh(Snapshot(), t)
      modifies this
      ensures CastAt(t, e, if sent then Finished else RLock) && old(trace) <= trace
      ensures !sent ==> schedule == [] && writer.Some?
    {
      Step(Label.Broadcast(t, e));
      sent := AcquireRead(t, e);
      if sent {
        var found := UserClients(t, e);
        VisitAll(t, e, found);
        EndLoop(t, e);
        ReleaseRead(t, e);
      }
    }
  }
}
