/** Get-or-create of the rate limiter, with its double check, as interleaved calls. */
module RateLimiter {
  import opened Domain

  type Tid = nat
  type LimiterId = nat

  /** The operation that a call of `getLimiter` does next. */
  datatype Pc =
    | RLock
    | Read
    | RUnlock(found: Option<LimiterId>)
    | Lock
    | Recheck
    | Install
    | Unlock(limiter: LimiterId)
    | Returned(limiter: LimiterId)
  {
    predicate Reading() { Read? || RUnlock? }
    predicate Writing() { Recheck? || Install? || Unlock? }
    function Limiter(): Option<LimiterId> {
      match this
      case RUnlock(found) => found
      case Unlock(l) => Some(l)
      case Returned(l) => Some(l)
      case _ => None
    }
  }

  datatype Call = Call(key: string, pc: Pc)

  /** `made` counts the limiters created so far and names the next one. */
  datatype State = State(visitors: map<string, LimiterId>, calls: map<Tid, Call>, writer: Option<Tid>, readers: set<Tid>, made: nat)

  const Init := State(map[], map[], None, {}, 0)

  datatype Label = Start(t: Tid, key: string) | Step(t: Tid)

  predicate Enabled(s: State, l: Label) {
    match l
    case Start(t, _) => t !in s.calls
    case Step(t) =>
      && t in s.calls && !s.calls[t].pc.Returned?
      && (s.calls[t].pc.RLock? ==> s.writer.None?)
      && (s.calls[t].pc.Lock? ==> s.writer.None? && s.readers == {})
  }

  function Goto(s: State, t: Tid, pc: Pc): map<Tid, Call>
    requires t in s.calls
  {
    s.calls[t := s.calls[t].(pc := pc)]
  }

  function CallStep(s: State, t: Tid): State
    requires t in s.calls
  {
    var key := s.calls[t].key;
    match s.calls[t].pc
    case RLock => s.(calls := Goto(s, t, Read), readers := s.readers + {t})
    case Read => s.(calls := Goto(s, t, RUnlock(if key in s.visitors then Some(s.visitors[key]) else None)))
    case RUnlock(found) =>
      s.(calls := Goto(s, t, if found.Some? then Returned(found.value) else Lock), readers := s.readers - {t})
    case Lock => s.(calls := Goto(s, t, Recheck), writer := Some(t))
    case Recheck => s.(calls := Goto(s, t, if key in s.visitors then Unlock(s.visitors[key]) else Install))
    case Install => s.(calls := Goto(s, t, Unlock(s.made)), visitors := s.visitors[key := s.made], made := s.made + 1)
    case Unlock(l) => s.(calls := Goto(s, t, Returned(l)), writer := None)
    case Returned(_) => s
  }

  function Apply(s: State, l: Label): State {
    if !Enabled(s, l) then s else
    match l
    case Start(t, key) => s.(calls := s.calls[t := Call(key, RLock)])
    case Step(t) => CallStep(s, t)
  }

  function Exec(ls: seq<Label>): State {
    if ls == [] then Init else Apply(Exec(ls[..|ls| - 1]), ls[|ls| - 1])
  }

  predicate Run(ls: seq<Label>) {
    ls != [] ==> Run(ls[..|ls| - 1]) && Enabled(Exec(ls[..|ls| - 1]), ls[|ls| - 1])
  }

  predicate LockOk(s: State) {
    && (forall t | t in s.calls && s.calls[t].pc.Writing() :: s.writer == Some(t))
    && (s.writer.Some? ==> s.readers == {} && s.writer.value in s.calls && s.calls[s.writer.value].pc.Writing())
    && (forall t | t in s.readers :: t in s.calls && s.calls[t].pc.Reading())
    && (forall t | t in s.calls && s.calls[t].pc.Reading() :: t in s.readers)
  }

  /** A limiter in a call's hands is the installed one; who installs has seen the key missing and holds the lock. */
  predicate HandsOk(s: State) {
    forall t | t in s.calls ::
      && (s.calls[t].pc.Limiter().Some? ==> s.calls[t].key in s.visitors && s.visitors[s.calls[t].key] == s.calls[t].pc.Limiter().value)
      && (s.calls[t].pc.Install? ==> s.calls[t].key !in s.visitors)
  }

  predicate OwnLimiters(s: State) {
    && (forall k | k in s.visitors :: s.visitors[k] < s.made)
    && (forall a, b | a in s.visitors && b in s.visitors && s.visitors[a] == s.visitors[b] :: a == b)
  }

  /** What a step of call `t` does to the lock. */
  predicate LockMove(s: State, u: State, t: Tid) {
    && t in s.calls && t in u.calls && u.calls == s.calls[t := u.calls[t]] && u.calls[t].key == s.calls[t].key
    && var pc, pc' := s.calls[t].pc, u.calls[t].pc;
    && u.readers == (if pc'.Reading() then s.readers + {t} else if pc.Reading() then s.readers - {t} else s.readers)
    && u.writer == (if pc'.Writing() then Some(t) else if pc.Writing() then None else s.writer)
    && (pc'.Reading() && !pc.Reading() ==> s.writer.None?)
    && (pc'.Writing() && !pc.Writing() ==> s.writer.None? && s.readers == {})
    && !(pc.Reading() && pc'.Writing()) && !(pc.Writing() && pc'.Reading())
  }

  lemma StepMovesLock(s: State, t: Tid)
    requires Enabled(s, Step(t))
    requires s.calls[t].pc.Reading() ==> t in s.readers
    requires s.calls[t].pc.Writing() ==> s.writer == Some(t)
    ensures LockMove(s, CallStep(s, t), t)
  {
  }

  lemma LockMoved(s: State, u: State, t: Tid)
    requires LockOk(s) && LockMove(s, u, t)
    ensures LockOk(u)
  {
  }

  /** A key gets its limiter from the holder of the write lock who found it missing. */
  lemma StepHands(s: State, t: Tid)
    requires LockOk(s) && HandsOk(s) && OwnLimiters(s) && Enabled(s, Step(t))
    ensures var u := CallStep(s, t); HandsOk(u) && OwnLimiters(u)
    ensures forall k | k in s.visitors :: k in CallStep(s, t).visitors && CallStep(s, t).visitors[k] == s.visitors[k]
  {
    var u, key := CallStep(s, t), s.calls[t].key;
    assert u.calls == s.calls[t := u.calls[t]] && u.calls[t].key == key;
    if s.calls[t].pc.Install? {
      assert key !in s.visitors && u.visitors == s.visitors[key := s.made];
      assert forall c | c in s.calls && c != t :: !s.calls[c].pc.Install?;
    } else {
      assert u.visitors == s.visitors;
    }
  }

  lemma StepOk(s: State, l: Label)
    requires LockOk(s) && HandsOk(s) && OwnLimiters(s) && Enabled(s, l)
    ensures var u := Apply(s, l); LockOk(u) && HandsOk(u) && OwnLimiters(u)
    ensures forall k | k in s.visitors :: k in Apply(s, l).visitors && Apply(s, l).visitors[k] == s.visitors[k]
  {
    if l.Step? {
      StepMovesLock(s, l.t);
      LockMoved(s, CallStep(s, l.t), l.t);
      StepHands(s, l.t);
    }
  }

  lemma {:induction false} OkAlways(ls: seq<Label>)
    requires Run(ls)
    ensures LockOk(Exec(ls)) && HandsOk(Exec(ls)) && OwnLimiters(Exec(ls))
  {
    if ls != [] {
      OkAlways(ls[..|ls| - 1]);
      StepOk(Exec(ls[..|ls| - 1]), ls[|ls| - 1]);
    }
  }

  /** An installed limiter is never replaced or removed. */
  lemma {:induction false} InstalledForGood(ls: seq<Label>, n: nat, key: string)
    requires Run(ls) && n <= |ls| && key in Exec(ls[..n]).visitors
    ensures key in Exec(ls).visitors && Exec(ls).visitors[key] == Exec(ls[..n]).visitors[key]
  {
    if n == |ls| {
      assert ls[..n] == ls;
    } else {
      assert ls[..|ls| - 1][..n] == ls[..n];
      InstalledForGood(ls[..|ls| - 1], n, key);
      OkAlways(ls[..|ls| - 1]);
      StepOk(Exec(ls[..|ls| - 1]), ls[|ls| - 1]);
    }
  }

  /** The call is on the fast way: it has not missed its key. */
  predicate Fast(c: Call) {
    c.pc.RLock? || c.pc.Read? || (c.pc.RUnlock? && c.pc.found.Some?) || c.pc.Returned?
  }

  lemma FastStep(s: State, l: Label, t: Tid)
    requires Enabled(s, l) && t in Apply(s, l).calls && Apply(s, l).calls[t].key in s.visitors
    requires t in s.calls ==> Fast(s.calls[t])
    ensures Fast(Apply(s, l).calls[t])
  {
  }

  /** A call for a key that had its limiter when the call began never comes to the write lock. */
  lemma {:induction false} InstalledNeedsNoLock(ls: seq<Label>, n: nat, t: Tid)
    requires Run(ls) && n <= |ls| && t !in Exec(ls[..n]).calls && t in Exec(ls).calls
    requires Exec(ls).calls[t].key in Exec(ls[..n]).visitors
    ensures Fast(Exec(ls).calls[t]) && Exec(ls).writer != Some(t)
  {
    assert ls[..|ls|] == ls;
    if n < |ls| {
      var before, l := ls[..|ls| - 1], ls[|ls| - 1];
      var s := Exec(before);
      assert before[..n] == ls[..n];
      InstalledForGood(before, n, Exec(ls).calls[t].key);
      if t in s.calls {
        assert s.calls[t].key == Exec(ls).calls[t].key;
        InstalledNeedsNoLock(before, n, t);
      }
      FastStep(s, l, t);
      OkAlways(ls);
    }
  }

  /** However calls interleave, two calls return the same limiter exactly when they have the same key. */
  lemma SameKeySameLimiter(ls: seq<Label>, a: Tid, b: Tid)
    requires Run(ls)
    requires a in Exec(ls).calls && Exec(ls).calls[a].pc.Returned?
    requires b in Exec(ls).calls && Exec(ls).calls[b].pc.Returned?
    ensures var s := Exec(ls); s.calls[a].pc.limiter == s.calls[b].pc.limiter <==> s.calls[a].key == s.calls[b].key
  {
    OkAlways(ls);
    var s := Exec(ls);
    assert s.calls[a].pc.Limiter() == Some(s.calls[a].pc.limiter) && s.calls[b].pc.Limiter() == Some(s.calls[b].pc.limiter);
  }
}
