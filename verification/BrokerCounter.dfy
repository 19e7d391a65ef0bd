/** The connection counter of the SSE broker, which is read and changed outside the lock. */
module BrokerCounter {
  import opened Domain
  import opened Broker
  import opened BrokerSafety

  function CountedSet(s: State): set<Tid> {
    set t | t in s.handlers && s.handlers[t].pc.Counted()
  }

  /** Handlers in the client map. */
  ghost function RegisteredSet(s: State): set<Tid> {
    set t | t in s.handlers && t in ClientsOf(s.clients, s.handlers[t].user)
  }

  /** In the map and not yet counted. */
  function ArrivingSet(s: State): set<Tid> {
    set t | t in s.handlers && (s.handlers[t].pc.Unlock? || s.handlers[t].pc.AddOne?)
  }

  /** Out of the map and still counted. */
  function LeavingSet(s: State): set<Tid> {
    set t | t in s.handlers && (s.handlers[t].pc.Prune? || s.handlers[t].pc.UnlockAgain? || s.handlers[t].pc.CloseEvents? || s.handlers[t].pc.SubtractOne?)
  }

  /** What a step of handler `t` does to the counter, and to where `t` stands. */
  predicate HandlerMove(cfg: Config, s: State, u: State, t: Tid) {
    && t in s.handlers && t in u.handlers && u.handlers == s.handlers[t := u.handlers[t]]
    && var pc, pc', admitted := s.handlers[t].pc, u.handlers[t].pc, s.active < cfg.maxConnections;
    && u.active == (if pc.AddOne? then s.active + 1 else if pc.SubtractOne? then s.active - 1 else s.active)
    && pc'.Counted() == (pc.AddOne? || (pc.Counted() && !pc.SubtractOne?))
    && pc'.PastCheck() == ((pc.LoadActive? && admitted) || (pc.PastCheck() && !pc.AddOne?))
    && (pc'.Subscribing() ==> pc.Subscribing())
  }

  lemma HandleMoves(cfg: Config, s: State, t: Tid)
    requires Enabled(cfg, s, Handle(t))
    ensures HandlerMove(cfg, s, HandleStep(cfg, s, t), t)
  {
    HandlerGoes(cfg, s, t);
  }

  /** The steps that handlers do not take leave the counter alone, and nobody gets closer to it. */
  lemma OthersDoNotCount(cfg: Config, s: State, l: Label)
    requires Enabled(cfg, s, l) && !l.Handle?
    ensures var u := Apply(cfg, s, l); u.active == s.active && CountedSet(u) == CountedSet(s) && PastSet(u) == PastSet(s)
  {
    var u := Apply(cfg, s, l);
    match l
    case StepCast(t, client, choice) => CastsDoNotCount(cfg, s, t, client, choice);
    case Broadcast(_, _) => assert u.handlers == s.handlers;
    case Take(_) => assert u.handlers == s.handlers;
    case _ => OneHandlerMore(s, u, l.t);
  }

  lemma CastsDoNotCount(cfg: Config, s: State, t: Tid, client: Tid, choice: Choice)
    requires Enabled(cfg, s, StepCast(t, client, choice))
    ensures var u := CastStep(cfg, s, t, client, choice); u.handlers == s.handlers && u.active == s.active
  {
  }

  /** A handler that connects, or begins to leave, is as much counted as before. */
  lemma OneHandlerMore(s: State, u: State, t: Tid)
    requires t in u.handlers && u.handlers == s.handlers[t := u.handlers[t]]
    requires (t in s.handlers && s.handlers[t].pc.Counted()) <==> u.handlers[t].pc.Counted()
    requires (t in s.handlers && s.handlers[t].pc.PastCheck()) <==> u.handlers[t].pc.PastCheck()
    ensures CountedSet(u) == CountedSet(s) && PastSet(u) == PastSet(s)
  {
    assert forall x :: x in CountedSet(u) <==> x in CountedSet(s);
    assert forall x :: x in PastSet(u) <==> x in PastSet(s);
  }

  lemma CountMove(cfg: Config, s: State, u: State, t: Tid)
    requires HandlerMove(cfg, s, u, t) && s.active == |CountedSet(s)|
    ensures u.active == |CountedSet(u)|
  {
    var pc := s.handlers[t].pc;
    if pc.AddOne? {
      assert CountedSet(u) == CountedSet(s) + {t};
    } else if pc.SubtractOne? {
      assert CountedSet(u) == CountedSet(s) - {t};
    } else {
      assert CountedSet(u) == CountedSet(s);
    }
  }

  lemma CountStep(cfg: Config, s: State, l: Label)
    requires s.active == |CountedSet(s)| && Enabled(cfg, s, l)
    ensures Apply(cfg, s, l).active == |CountedSet(Apply(cfg, s, l))|
  {
    var u := Apply(cfg, s, l);
    if l.Handle? {
      HandleMoves(cfg, s, l.t);
      CountMove(cfg, s, u, l.t);
    } else {
      OthersDoNotCount(cfg, s, l);
    }
  }

  lemma {:induction false} CountAlways(cfg: Config, ls: seq<Label>)
    requires Run(cfg, ls)
    ensures Exec(cfg, ls).active == |CountedSet(Exec(cfg, ls))|
  {
    if ls == [] {
      assert CountedSet(Init) == {};
    } else {
      CountAlways(cfg, ls[..|ls| - 1]);
      CountStep(cfg, Exec(cfg, ls[..|ls| - 1]), ls[|ls| - 1]);
    }
  }

  lemma SizeOfDifference<T>(a: set<T>, b: set<T>)
    requires b <= a
    ensures |a - b| == |a| - |b|
  {
    assert a == (a - b) + b;
  }

  /**
    In every interleaving the counter is the number of clients in the map, less those not yet counted, plus those
    already removed and still counted.
  */
  lemma CounterAccount(cfg: Config, s: State)
    requires Reachable(cfg, s)
    ensures s.active == |RegisteredSet(s)| - |ArrivingSet(s)| + |LeavingSet(s)|
  {
    var ls :| Run(cfg, ls) && Exec(cfg, ls) == s;
    CountAlways(cfg, ls);
    SafeAlways(cfg, ls);
    RegisteredByPc(s);
    SetsAddUp(s);
  }

  lemma RegisteredByPc(s: State)
    requires MembersOk(s)
    ensures RegisteredSet(s) == set t | t in s.handlers && s.handlers[t].pc.Registered()
  {
    assert forall t | t in s.handlers :: t in ClientsOf(s.clients, s.handlers[t].user) <==> s.handlers[t].pc.Registered();
  }

  lemma DisjointSizes<T>(counted: set<T>, registered: set<T>, arriving: set<T>, leaving: set<T>)
    requires arriving <= registered && registered !! leaving
    requires counted == (registered - arriving) + leaving
    ensures |counted| == |registered| - |arriving| + |leaving|
  {
    SizeOfDifference(registered, arriving);
    assert (registered - arriving) !! leaving;
  }

  lemma SetsAddUp(s: State)
    requires RegisteredSet(s) == set t | t in s.handlers && s.handlers[t].pc.Registered()
    ensures |CountedSet(s)| == |RegisteredSet(s)| - |ArrivingSet(s)| + |LeavingSet(s)|
  {
    var counted, registered, arriving, leaving := CountedSet(s), RegisteredSet(s), ArrivingSet(s), LeavingSet(s);
    assert arriving <= registered && registered !! leaving;
    assert counted <= (registered - arriving) + leaving;
    assert (registered - arriving) + leaving <= counted;
    DisjointSizes(counted, registered, arriving, leaving);
  }

  // ---------------------------------------------------------------- the capacity check

  function PastSet(s: State): set<Tid> {
    set t | t in s.handlers && s.handlers[t].pc.PastCheck()
  }

  function InFlight(s: State): set<Tid> {
    set t | t in s.handlers && s.handlers[t].pc.Subscribing()
  }

  /** No more than `k` calls of `Subscribe` overlap. */
  predicate AtMost(cfg: Config, ls: seq<Label>, k: nat) {
    && |InFlight(Exec(cfg, ls))| <= k
    && (ls != [] ==> AtMost(cfg, ls[..|ls| - 1], k))
  }

  lemma SubsetSize<T>(a: set<T>, b: set<T>)
    requires a <= b
    ensures |a| <= |b|
  {
    SizeOfDifference(b, a);
  }

  lemma OvershootStep(cfg: Config, s: State, l: Label, k: nat)
    requires Enabled(cfg, s, l) && k >= 1 && cfg.maxConnections >= 1
    requires s.active + |PastSet(s)| <= cfg.maxConnections - 1 + k
    requires |InFlight(Apply(cfg, s, l))| <= k
    ensures var u := Apply(cfg, s, l); u.active + |PastSet(u)| <= cfg.maxConnections - 1 + k
  {
    var u := Apply(cfg, s, l);
    if l.Handle? {
      HandleMoves(cfg, s, l.t);
      PastMove(cfg, s, u, l.t);
      SubsetSize(PastSet(u), InFlight(u));
    } else {
      OthersDoNotCount(cfg, s, l);
    }
  }

  lemma PastMove(cfg: Config, s: State, u: State, t: Tid)
    requires HandlerMove(cfg, s, u, t)
    ensures var pc := s.handlers[t].pc;
            && (pc.LoadActive? && s.active < cfg.maxConnections ==> u.active == s.active)
            && (!(pc.LoadActive? && s.active < cfg.maxConnections) ==> u.active + |PastSet(u)| <= s.active + |PastSet(s)|)
  {
    var pc := s.handlers[t].pc;
    if pc.AddOne? {
      assert PastSet(u) == PastSet(s) - {t};
    } else if pc.LoadActive? && s.active < cfg.maxConnections {
      assert PastSet(u) == PastSet(s) + {t};
    } else {
      assert PastSet(u) == PastSet(s);
    }
  }

  /** A run with at most `k` overlapping calls of `Subscribe` reaches `s`. */
  ghost predicate ReachableWith(cfg: Config, s: State, k: nat) {
    exists ls :: Run(cfg, ls) && AtMost(cfg, ls, k) && Exec(cfg, ls) == s
  }

  /**
    The check of the capacity and the increment are two steps, so the limit can be overrun; with at most `k` calls
    of `Subscribe` at a time, by no more than `k - 1`.
  */
  lemma Overshoot(cfg: Config, s: State, k: nat)
    requires ReachableWith(cfg, s, k) && k >= 1 && cfg.maxConnections >= 1
    ensures s.active + |PastSet(s)| <= cfg.maxConnections - 1 + k
  {
    var ls :| Run(cfg, ls) && AtMost(cfg, ls, k) && Exec(cfg, ls) == s;
    OvershootAlways(cfg, ls, k);
  }

  lemma {:induction false} OvershootAlways(cfg: Config, ls: seq<Label>, k: nat)
    requires Run(cfg, ls) && AtMost(cfg, ls, k) && k >= 1 && cfg.maxConnections >= 1
    ensures Exec(cfg, ls).active + |PastSet(Exec(cfg, ls))| <= cfg.maxConnections - 1 + k
  {
    if ls == [] {
      assert PastSet(Init) == {};
    } else {
      OvershootAlways(cfg, ls[..|ls| - 1], k);
      OvershootStep(cfg, Exec(cfg, ls[..|ls| - 1]), ls[|ls| - 1], k);
    }
  }

  // ---------------------------------------------------------------- the bound is reached

  /** Handlers `0..a` stream, `a..a+b` have passed the check, and nothing else is going on. */
  predicate Lined(s: State, a: nat, b: nat) {
    && (forall t: Tid | t in s.handlers :: t < a + b)
    && (forall t: Tid | 0 <= t < a + b :: t in s.handlers && s.handlers[t].pc == if t < a then Streaming else Lock)
    && (forall t: Tid | 0 <= t < a + b :: t in s.chans)
    && s.casts == map[] && s.active == a && Unlocked(s)
  }

  function Range(a: nat, b: nat): set<Tid> {
    if b == 0 then {} else Range(a, b - 1) + {a + b - 1}
  }

  lemma {:induction false} RangeSize(a: nat, b: nat)
    ensures |Range(a, b)| == b && forall t: Tid :: t in Range(a, b) <==> a <= t < a + b
  {
    if b > 0 { RangeSize(a, b - 1); }
  }

  lemma LinedInFlight(s: State, a: nat, b: nat)
    requires Lined(s, a, b)
    ensures |InFlight(s)| == b
  {
    RangeSize(a, b);
    assert InFlight(s) == Range(a, b);
  }

  /** One more step, after which no more calls overlap than may. */
  lemma OneMore(cfg: Config, s: State, l: Label, k: nat) returns (t: State)
    requires ReachableWith(cfg, s, k) && Enabled(cfg, s, l) && |InFlight(Apply(cfg, s, l))| <= k
    ensures ReachableWith(cfg, t, k) && t == Apply(cfg, s, l)
  {
    var ls :| Run(cfg, ls) && AtMost(cfg, ls, k) && Exec(cfg, ls) == s;
    RunSnoc(cfg, ls, l);
    t := Exec(cfg, ls + [l]);
    assert (ls + [l])[..|ls + [l]| - 1] == ls;
  }

  /** One more step of a handler. */
  lemma HandlerOneMore(cfg: Config, s: State, t: Tid, k: nat) returns (u: State)
    requires ReachableWith(cfg, s, k) && |InFlight(s)| <= k && Enabled(cfg, s, Handle(t))
    ensures ReachableWith(cfg, u, k) && u == HandleStep(cfg, s, t) && |InFlight(u)| <= k
  {
    HandleMoves(cfg, s, t);
    SubsetSize(InFlight(HandleStep(cfg, s, t)), InFlight(s));
    u := OneMore(cfg, s, Handle(t), k);
  }

  /** Like `Lined`, with handler `a` at `pc`. */
  predicate Moving(s: State, a: nat, b: nat, pc: HandlerPc) {
    && (forall t: Tid | t in s.handlers :: t < a + b)
    && (forall t: Tid | 0 <= t < a + b :: t in s.handlers && s.handlers[t].pc == if t < a then Streaming else if t == a then pc else Lock)
    && (forall t: Tid | 0 <= t < a + b :: t in s.chans)
    && s.casts == map[] && s.active == a && s.readers == {}
    && s.writer == if pc.Writing() then Some(a) else None
  }

  lemma MovingStep(cfg: Config, s: State, a: nat, b: nat, pc: HandlerPc)
    requires Moving(s, a, b, pc) && b > 0 && pc.PastCheck()
    ensures Enabled(cfg, s, Handle(a))
    ensures var u := HandleStep(cfg, s, a);
            match pc
            case Lock => Moving(u, a, b, MakeSet)
            case MakeSet => Moving(u, a, b, Insert)
            case Insert => Moving(u, a, b, Unlock)
            case Unlock => Moving(u, a, b, AddOne)
            case AddOne => Lined(u, a + 1, b - 1)
            case _ => true
  {
    assert a in s.handlers && a in s.chans;
  }

  /** The first handler in line registers and is counted. */
  lemma Register(cfg: Config, s: State, a: nat, b: nat, k: nat) returns (t: State)
    requires ReachableWith(cfg, s, k) && Lined(s, a, b) && 0 < b <= k
    ensures ReachableWith(cfg, t, k) && Lined(t, a + 1, b - 1)
  {
    LinedInFlight(s, a, b);
    assert Moving(s, a, b, Lock);
    MovingStep(cfg, s, a, b, Lock);
    t := HandlerOneMore(cfg, s, a, k);
    t := MoveOn(cfg, t, a, b, MakeSet, Insert, k);
    t := MoveOn(cfg, t, a, b, Insert, Unlock, k);
    t := MoveOn(cfg, t, a, b, Unlock, AddOne, k);
    MovingStep(cfg, t, a, b, AddOne);
    t := HandlerOneMore(cfg, t, a, k);
  }

  lemma MoveOn(cfg: Config, s: State, a: nat, b: nat, pc: HandlerPc, next: HandlerPc, k: nat) returns (t: State)
    requires ReachableWith(cfg, s, k) && |InFlight(s)| <= k && Moving(s, a, b, pc) && b > 0
    requires (pc.MakeSet? && next.Insert?) || (pc.Insert? && next.Unlock?) || (pc.Unlock? && next.AddOne?)
    ensures ReachableWith(cfg, t, k) && |InFlight(t)| <= k && Moving(t, a, b, next)
  {
    MovingStep(cfg, s, a, b, pc);
    t := HandlerOneMore(cfg, s, a, k);
  }

  /** Like `Lined`, with one more handler about to look at the counter. */
  predicate Joining(s: State, a: nat, b: nat) {
    && (forall t: Tid | t in s.handlers :: t <= a + b)
    && (forall t: Tid | 0 <= t <= a + b :: t in s.handlers && s.handlers[t].pc == if t < a then Streaming else if t < a + b then Lock else LoadActive)
    && (forall t: Tid | 0 <= t < a + b :: t in s.chans)
    && s.casts == map[] && s.active == a && Unlocked(s)
  }

  lemma ConnectState(cfg: Config, s: State, a: nat, b: nat)
    requires Lined(s, a, b)
    ensures Enabled(cfg, s, Connect(a + b, "u"))
    ensures var u := Apply(cfg, s, Connect(a + b, "u")); Joining(u, a, b) && InFlight(u) == InFlight(s) + {a + b}
  {
  }

  lemma JoinState(cfg: Config, s: State, a: nat, b: nat) returns (t: Tid)
    requires Joining(s, a, b) && a < cfg.maxConnections
    ensures Enabled(cfg, s, Handle(t)) && Lined(HandleStep(cfg, s, t), a, b + 1)
  {
    t := a + b;
  }

  lemma Join(cfg: Config, s: State, a: nat, b: nat, k: nat) returns (t: State)
    requires ReachableWith(cfg, s, k) && Lined(s, a, b) && b < k
    ensures ReachableWith(cfg, t, k) && Joining(t, a, b) && |InFlight(t)| <= k
  {
    LinedInFlight(s, a, b);
    ConnectState(cfg, s, a, b);
    t := OneMore(cfg, s, Connect(a + b, "u"), k);
  }

  /** One more handler passes the check. */
  lemma Admit(cfg: Config, s: State, a: nat, b: nat, k: nat) returns (t: State)
    requires ReachableWith(cfg, s, k) && Lined(s, a, b) && a < cfg.maxConnections && b < k
    ensures ReachableWith(cfg, t, k) && Lined(t, a, b + 1)
  {
    t := Join(cfg, s, a, b, k);
    var last := JoinState(cfg, t, a, b);
    t := HandlerOneMore(cfg, t, last, k);
  }

  lemma {:induction false} FillUp(cfg: Config, n: nat, k: nat) returns (s: State)
    requires n < cfg.maxConnections && k >= 1
    ensures ReachableWith(cfg, s, k) && Lined(s, n, 0)
    decreases n
  {
    if n == 0 {
      s := Exec(cfg, []);
      assert InFlight(Init) == {};
    } else {
      s := FillUp(cfg, n - 1, k);
      s := Admit(cfg, s, n - 1, 0, k);
      s := Register(cfg, s, n - 1, 1, k);
    }
  }

  lemma {:induction false} LineUp(cfg: Config, b: nat, k: nat) returns (s: State)
    requires cfg.maxConnections >= 1 && b <= k && k >= 1
    ensures ReachableWith(cfg, s, k) && Lined(s, cfg.maxConnections - 1, b)
    decreases b
  {
    if b == 0 {
      s := FillUp(cfg, cfg.maxConnections - 1, k);
    } else {
      s := LineUp(cfg, b - 1, k);
      s := Admit(cfg, s, cfg.maxConnections - 1, b - 1, k);
    }
  }

  lemma {:induction false} AllIn(cfg: Config, s: State, a: nat, b: nat, k: nat) returns (t: State)
    requires ReachableWith(cfg, s, k) && Lined(s, a, b) && b <= k
    ensures ReachableWith(cfg, t, k) && Lined(t, a + b, 0)
    decreases b
  {
    if b == 0 {
      t := s;
    } else {
      t := Register(cfg, s, a, b, k);
      t := AllIn(cfg, t, a + 1, b - 1, k);
    }
  }

  /** For every `k` there is a run with at most `k` overlapping calls in which the counter reaches the bound. */
  lemma OvershootReached(cfg: Config, k: nat) returns (s: State)
    requires k >= 1 && cfg.maxConnections >= 1
    ensures ReachableWith(cfg, s, k) && s.active == cfg.maxConnections - 1 + k
  {
    s := LineUp(cfg, k, k);
    s := AllIn(cfg, s, cfg.maxConnections - 1, k, k);
  }

  /** The limit is kept as long as at most `k` calls of `Subscribe` overlap. */
  ghost predicate LimitKept(cfg: Config, k: nat) {
    forall s: State :: ReachableWith(cfg, s, k) ==> s.active <= cfg.maxConnections
  }

  lemma {:induction false} AtMostMore(cfg: Config, ls: seq<Label>, k: nat, n: nat)
    requires AtMost(cfg, ls, k) && k <= n
    ensures AtMost(cfg, ls, n)
  {
    if ls != [] { AtMostMore(cfg, ls[..|ls| - 1], k, n); }
  }

  /** The configured limit holds exactly when calls of `Subscribe` do not overlap. */
  lemma LimitExact(cfg: Config, k: nat)
    requires cfg.maxConnections >= 1
    ensures LimitKept(cfg, k) <==> k <= 1
  {
    if k <= 1 {
      forall s: State | ReachableWith(cfg, s, k) ensures s.active <= cfg.maxConnections {
        var ls :| Run(cfg, ls) && AtMost(cfg, ls, k) && Exec(cfg, ls) == s;
        AtMostMore(cfg, ls, k, 1);
        Overshoot(cfg, s, 1);
      }
    } else {
      var s := OvershootReached(cfg, k);
    }
  }
}
