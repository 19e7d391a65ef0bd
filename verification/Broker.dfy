/**
  The SSE broker as a state machine: stream handlers that subscribe and unsubscribe, and broadcasts, interleaving
  at every lock operation, channel operation, map change and counter change.
*/
module Broker {
  import opened Domain

  datatype Config = Config(maxConnections: int, clientBuffer: nat)

  /** A thread; a handler's identity also names the client it creates. */
  type Tid = nat

  /** Where a handler stands: in `Subscribe`, streaming, or in `Unsubscribe`, at the operation it does next. */
  datatype HandlerPc =
    | LoadActive
    | Lock
    | MakeSet
    | Insert
    | Unlock
    | AddOne
    | Streaming
    | CloseDone
    | LockAgain
    | Delete
    | Prune
    | UnlockAgain
    | CloseEvents
    | SubtractOne
    | Gone
    | Refused
  {
    predicate Writing() { MakeSet? || Insert? || Unlock? || Delete? || Prune? || UnlockAgain? }
    /** Between the insertion into the client map and the removal from it. */
    predicate Registered() { Unlock? || AddOne? || Streaming? || CloseDone? || LockAgain? || Delete? }
    /** Between the two changes of the counter. */
    predicate Counted() { Streaming? || CloseDone? || LockAgain? || Delete? || Prune? || UnlockAgain? || CloseEvents? || SubtractOne? }
    /** Past the capacity check and not yet counted. */
    predicate PastCheck() { Lock? || MakeSet? || Insert? || Unlock? || AddOne? }
    predicate Subscribing() { LoadActive? || PastCheck() }
    predicate HasClient() { !LoadActive? && !Refused? }
    predicate DoneClosed() { LockAgain? || Delete? || Prune? || UnlockAgain? || CloseEvents? || SubtractOne? || Gone? }
    predicate EventsClosed() { SubtractOne? || Gone? }
    /** Taken out of the client map. */
    predicate Departed() { Prune? || UnlockAgain? || CloseEvents? || SubtractOne? || Gone? }
    predicate Entered() { Registered() || Departed() }
  }

  datatype Handler = Handler(user: UserId, pc: HandlerPc)

  /** Where a broadcast stands; `rest` are the clients of the user it has not visited. */
  datatype CastPc =
    | RLock
    | LookUp
    | Next(rest: set<Tid>)
    | Send(client: Tid, rest: set<Tid>)
    | RUnlock
    | Finished
  {
    predicate Reading() { LookUp? || Next? || Send? || RUnlock? }
    function Ahead(): set<Tid> {
      if Next? then rest else if Send? then rest + {client} else {}
    }
  }

  datatype Cast = Cast(event: JobEvent, pc: CastPc)

  /**
    A client's channels, and its history: what the reader took, which events visited it, how many of them were
    dropped because the buffer was full or skipped because the client was leaving, and how many broadcasts there
    had been when it entered the client map and when it left it.
  */
  datatype Client = Client(
    buffer: seq<JobEvent>,
    doneClosed: bool,
    eventsClosed: bool,
    taken: seq<JobEvent>,
    visits: seq<JobEvent>,
    dropped: nat,
    skipped: nat,
    since: Option<nat>,
    until: Option<nat>)

  datatype State = State(
    clients: map<UserId, set<Tid>>,
    handlers: map<Tid, Handler>,
    casts: map<Tid, Cast>,
    chans: map<Tid, Client>,
    active: int,
    writer: Option<Tid>,
    readers: set<Tid>,
    log: seq<JobEvent>,
    panicked: bool)

  const Init := State(map[], map[], map[], map[], 0, None, {}, [], false)

  /** How a `select` over `done`, the send and the default case goes; `HandOver` is a send without buffer. */
  datatype Choice = SeeDone | Deliver | HandOver | Drop

  datatype Label =
    | Connect(t: Tid, user: UserId)
    | Handle(t: Tid)
    | Take(t: Tid)
    | Leave(t: Tid)
    | Broadcast(t: Tid, event: JobEvent)
    | StepCast(t: Tid, client: Tid, choice: Choice)

  predicate Fresh(s: State, t: Tid) { t !in s.handlers && t !in s.casts }

  predicate Unlocked(s: State) { s.writer.None? && s.readers == {} }

  predicate Ready(cfg: Config, s: State, t: Tid, client: Tid, choice: Choice)
    requires t in s.casts
  {
    match s.casts[t].pc
    case RLock => s.writer.None?
    case Next(rest) => rest == {} || (client in rest && client in s.chans)
    case Send(c, _) =>
      c in s.chans &&
      (match choice
       case SeeDone => s.chans[c].doneClosed
       case Deliver => |s.chans[c].buffer| < cfg.clientBuffer || s.chans[c].eventsClosed
       case HandOver => cfg.clientBuffer == 0 && !s.chans[c].eventsClosed && c in s.handlers && s.handlers[c].pc.Streaming?
       case Drop => !s.chans[c].doneClosed && !s.chans[c].eventsClosed && |s.chans[c].buffer| >= cfg.clientBuffer)
    case Finished => false
    case _ => true
  }

  predicate Enabled(cfg: Config, s: State, l: Label) {
    match l
    case Connect(t, _) => Fresh(s, t)
    case Handle(t) =>
      && t in s.handlers
      && var pc := s.handlers[t].pc;
      && !pc.Streaming? && !pc.Gone? && !pc.Refused?
      && (pc.Lock? || pc.LockAgain? ==> Unlocked(s))
      && (pc.HasClient() && !pc.Lock? ==> t in s.chans)
    case Take(t) => t in s.handlers && s.handlers[t].pc.Streaming? && t in s.chans && s.chans[t].buffer != []
    case Leave(t) => t in s.handlers && s.handlers[t].pc.Streaming?
    case Broadcast(t, _) => Fresh(s, t)
    case StepCast(t, client, choice) => t in s.casts && Ready(cfg, s, t, client, choice)
  }

  const NewClient := Client([], false, false, [], [], 0, 0, None, None)

  function ClientsOf(clients: map<UserId, set<Tid>>, user: UserId): set<Tid> {
    if user in clients then clients[user] else {}
  }

  function Goto(s: State, t: Tid, pc: HandlerPc): map<Tid, Handler>
    requires t in s.handlers
  {
    s.handlers[t := s.handlers[t].(pc := pc)]
  }

  function HandleStep(cfg: Config, s: State, t: Tid): State
    requires Enabled(cfg, s, Handle(t))
  {
    var user := s.handlers[t].user;
    match s.handlers[t].pc
    case LoadActive =>
      if s.active >= cfg.maxConnections then s.(handlers := Goto(s, t, Refused))
      else s.(handlers := Goto(s, t, Lock), chans := s.chans[t := NewClient])
    case Lock => s.(handlers := Goto(s, t, MakeSet), writer := Some(t))
    case MakeSet =>
      s.(handlers := Goto(s, t, Insert),
         clients := if user in s.clients then s.clients else s.clients[user := {}])
    case Insert =>
      s.(handlers := Goto(s, t, Unlock),
         clients := s.clients[user := ClientsOf(s.clients, user) + {t}],
         chans := s.chans[t := s.chans[t].(since := Some(|s.log|))])
    case Unlock => s.(handlers := Goto(s, t, AddOne), writer := None)
    case AddOne => s.(handlers := Goto(s, t, Streaming), active := s.active + 1)
    case CloseDone =>
      s.(handlers := Goto(s, t, LockAgain),
         chans := s.chans[t := s.chans[t].(doneClosed := true)],
         panicked := s.panicked || s.chans[t].doneClosed)
    case LockAgain => s.(handlers := Goto(s, t, Delete), writer := Some(t))
    case Delete =>
      s.(handlers := Goto(s, t, if user in s.clients then Prune else UnlockAgain),
         clients := if user in s.clients then s.clients[user := s.clients[user] - {t}] else s.clients,
         chans := s.chans[t := s.chans[t].(until := Some(|s.log|))])
    case Prune =>
      s.(handlers := Goto(s, t, UnlockAgain),
         clients := if user in s.clients && s.clients[user] == {} then s.clients - {user} else s.clients)
    case UnlockAgain => s.(handlers := Goto(s, t, CloseEvents), writer := None)
    case CloseEvents =>
      s.(handlers := Goto(s, t, SubtractOne),
         chans := s.chans[t := s.chans[t].(eventsClosed := true)],
         panicked := s.panicked || s.chans[t].eventsClosed)
    case SubtractOne => s.(handlers := Goto(s, t, Gone), active := s.active - 1)
    case _ => s
  }

  function Skip(c: Client, e: JobEvent): Client {
    c.(visits := c.visits + [e], skipped := c.skipped + 1)
  }

  /** The second `select` of `broadcast` on client `c`; sending on a closed channel panics. */
  function Visit(c: Client, e: JobEvent, choice: Choice): Client {
    match choice
    case SeeDone => Skip(c, e)
    case Deliver => if c.eventsClosed then c else c.(visits := c.visits + [e], buffer := c.buffer + [e])
    case HandOver => c.(visits := c.visits + [e], taken := c.taken + c.buffer + [e], buffer := [])
    case Drop => c.(visits := c.visits + [e], dropped := c.dropped + 1)
  }

  function CastStep(cfg: Config, s: State, t: Tid, client: Tid, choice: Choice): State
    requires Enabled(cfg, s, StepCast(t, client, choice))
  {
    var e := s.casts[t].event;
    match s.casts[t].pc
    case RLock => s.(casts := s.casts[t := Cast(e, LookUp)], readers := s.readers + {t})
    case LookUp =>
      s.(casts := s.casts[t := Cast(e, Next(ClientsOf(s.clients, e.userId)))], log := s.log + [e])
    case Next(rest) =>
      if rest == {} then s.(casts := s.casts[t := Cast(e, RUnlock)])
      else if s.chans[client].doneClosed
      then s.(casts := s.casts[t := Cast(e, Next(rest - {client}))], chans := s.chans[client := Skip(s.chans[client], e)])
      else s.(casts := s.casts[t := Cast(e, Send(client, rest - {client}))])
    case Send(c, rest) =>
      s.(casts := s.casts[t := Cast(e, Next(rest))],
         chans := s.chans[c := Visit(s.chans[c], e, choice)],
         panicked := s.panicked || (choice.Deliver? && s.chans[c].eventsClosed))
    case RUnlock => s.(casts := s.casts[t := Cast(e, Finished)], readers := s.readers - {t})
    case Finished => s
  }

  function Apply(cfg: Config, s: State, l: Label): State {
    if !Enabled(cfg, s, l) then s else
    match l
    case Connect(t, user) => s.(handlers := s.handlers[t := Handler(user, LoadActive)])
    case Handle(t) => HandleStep(cfg, s, t)
    case Take(t) =>
      var c := s.chans[t];
      s.(chans := s.chans[t := c.(buffer := c.buffer[1..], taken := c.taken + [c.buffer[0]])])
    case Leave(t) => s.(handlers := Goto(s, t, CloseDone))
    case Broadcast(t, e) => s.(casts := s.casts[t := Cast(e, RLock)])
    case StepCast(t, client, choice) => CastStep(cfg, s, t, client, choice)
  }

  function Exec(cfg: Config, ls: seq<Label>): State {
    if ls == [] then Init else Apply(cfg, Exec(cfg, ls[..|ls| - 1]), ls[|ls| - 1])
  }

  predicate Run(cfg: Config, ls: seq<Label>) {
    ls != [] ==>
      Run(cfg, ls[..|ls| - 1]) && Enabled(cfg, Exec(cfg, ls[..|ls| - 1]), ls[|ls| - 1])
  }

  ghost predicate Reachable(cfg: Config, s: State) {
    exists ls :: Run(cfg, ls) && Exec(cfg, ls) == s
  }

  lemma RunSnoc(cfg: Config, ls: seq<Label>, l: Label)
    ensures Exec(cfg, ls + [l]) == Apply(cfg, Exec(cfg, ls), l)
    ensures Run(cfg, ls + [l]) <==> Run(cfg, ls) && Enabled(cfg, Exec(cfg, ls), l)
  {
    assert (ls + [l])[..|ls|] == ls;
  }
}
