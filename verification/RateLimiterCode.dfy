/** The code of `getLimiter`, while any number of other calls run at every operation on the lock and the map. */
module RateLimiterCode {
  import opened Domain
  import opened RateLimiter

  predicate Foreign(l: Label, t: Tid) { l.t != t }

  lemma ForeignKeeps(s: State, l: Label, t: Tid)
    requires Enabled(s, l) && Foreign(l, t)
    ensures var u := Apply(s, l); (t in u.calls <==> t in s.calls) && (t in s.calls ==> u.calls[t] == s.calls[t])
  {
  }

  class Limiters {
    var visitors: map<string, LimiterId>
    var writer: Option<Tid>
    var readers: set<Tid>
    var made: nat
    /** Where every call stands. */
    var calls: map<Tid, Call>
    /** What the other calls want to do before each of the coming operations. */
    var schedule: seq<seq<Label>>
    /** The steps taken so far. */
    ghost var trace: seq<Label>

    constructor (schedule: seq<seq<Label>>)
      ensures Valid() && trace == [] && this.schedule == schedule
    {
      visitors, writer, readers, made, calls := map[], None, {}, 0, map[];
      this.schedule, trace := schedule, [];
    }

    function Snapshot(): State
      reads this
    {
      State(visitors, calls, writer, readers, made)
    }

    ghost predicate Valid()
      reads this
    {
      Run(trace) && Snapshot() == Exec(trace)
    }

    ghost predicate At(t: Tid, key: string, pc: Pc)
      reads this
    {
      Valid() && t in calls && calls[t] == Call(key, pc)
    }

    method Take(l: Label)
      requires Valid() && Enabled(Snapshot(), l)
      modifies this
      ensures Valid() && trace == old(trace) + [l] && Snapshot() == Apply(old(Snapshot()), l) && schedule == old(schedule)
    {
      var s := Apply(Snapshot(), l);
      assert (trace + [l])[..|trace|] == trace;
      visitors, calls, writer, readers, made := s.visitors, s.calls, s.writer, s.readers, s.made;
      trace := trace + [l];
    }

    /** The other calls run before the next operation of call `t`. */
    method Others(t: Tid, key: string, pc: Pc)
      requires At(t, key, pc)
      modifies this
      ensures At(t, key, pc) && old(trace) <= trace
      ensures |schedule| <= |old(schedule)| && (old(schedule) != [] ==> |schedule| < |old(schedule)|)
    {
      if schedule == [] { return; }
      var turn := schedule[0];
      schedule := schedule[1..];
      for i := 0 to |turn|
        invariant At(t, key, pc) && old(trace) <= trace && schedule == old(schedule)[1..]
      {
        if Enabled(Snapshot(), turn[i]) && Foreign(turn[i], t) {
          ForeignKeeps(Snapshot(), turn[i], t);
          Take(turn[i]);
        }
      }
    }

    /** Takes down the step of call `t` once the fields show its effect on the lock and the map. */
    method Record(before: State, t: Tid)
      requires Run(trace) && before == Exec(trace) && Enabled(before, Step(t))
      requires var u := CallStep(before, t); visitors == u.visitors && writer == u.writer && readers == u.readers && made == u.made
      modifies this`calls, this`trace
      ensures Valid() && trace == old(trace) + [Step(t)] && Snapshot() == CallStep(before, t)
    {
      assert (trace + [Step(t)])[..|trace|] == trace;
      calls := CallStep(before, t).calls;
      trace := trace + [Step(t)];
    }

    method AcquireRead(t: Tid, key: string) returns (got: bool)
      requires At(t, key, RLock)
      modifies this
      ensures At(t, key, if got then Read else RLock) && old(trace) <= trace
      ensures !got ==> schedule == [] && writer.Some?
    {
      Others(t, key, RLock);
      while schedule != [] && writer.Some?
        invariant At(t, key, RLock) && old(trace) <= trace
        decreases |schedule|
      {
        Others(t, key, RLock);
      }
      got := writer.None?;
      if got {
        var before := Snapshot();
        readers := readers + {t};
        Record(before, t);
      }
    }

    /** The look-up under the read lock, which is given back before the result is looked at. */
    method LookUp(t: Tid, key: string) returns (found: Option<LimiterId>)
      requires At(t, key, Read)
      modifies this
      ensures At(t, key, if found.Some? then Returned(found.value) else Lock) && old(trace) <= trace
    {
      Others(t, key, Read);
      found := if key in visitors then Some(visitors[key]) else None;
      Record(Snapshot(), t);
      Others(t, key, RUnlock(found));
      var before := Snapshot();
      readers := readers - {t};
      Record(before, t);
    }

    method AcquireWrite(t: Tid, key: string) returns (got: bool)
      requires At(t, key, Lock)
      modifies this
      ensures At(t, key, if got then Recheck else Lock) && old(trace) <= trace
      ensures !got ==> schedule == [] && (writer.Some? || readers != {})
    {
      Others(t, key, Lock);
      while schedule != [] && (writer.Some? || readers != {})
        invariant At(t, key, Lock) && old(trace) <= trace
        decreases |schedule|
      {
        Others(t, key, Lock);
      }
      got := writer.None? && readers == {};
      if got {
        var before := Snapshot();
        writer := Some(t);
        Record(before, t);
      }
    }

    /** The second check and the new limiter, under the write lock. */
    method Install(t: Tid, key: string) returns (limiter: LimiterId)
      requires At(t, key, Recheck)
      modifies this
      ensures At(t, key, Unlock(limiter)) && old(trace) <= trace
    {
      Others(t, key, Recheck);
      var found := key in visitors;
      limiter := if found then visitors[key] else made;
      Record(Snapshot(), t);
      if !found {
        Others(t, key, Pc.Install);
        limiter := made;
        var before := Snapshot();
        visitors, made := visitors[key := limiter], made + 1;
        Record(before, t);
      }
    }

    /** The part of `getLimiter` under the write lock. */
    method GetOrInstall(t: Tid, key: string) returns (limiter: Option<LimiterId>)
      requires At(t, key, Lock)
      modifies this
      ensures At(t, key, if limiter.Some? then Returned(limiter.value) else Lock) && old(trace) <= trace
      ensures limiter.None? ==> schedule == [] && (writer.Some? || readers != {})
    {
      var got := AcquireWrite(t, key);
      if !got {
        return None;
      }
      var l := Install(t, key);
      Others(t, key, Unlock(l));
      var before := Snapshot();
      writer := None;
      Record(before, t);
      return Some(l);
    }

    /**
      The limiter of the key, unless the others never give back the lock; whatever they do in between, it is the
      installed one.
    */
    method GetLimiter(t: Tid, key: string) returns (limiter: Option<LimiterId>)
      requires Valid() && t !in calls
      modifies this
      ensures Valid() && old(trace) <= trace
      ensures limiter.Some? ==> At(t, key, Returned(limiter.value)) && key in visitors && visitors[key] == limiter.value
      ensures limiter.None? ==> schedule == [] && (writer.Some? || readers != {})
    {
      Take(Start(t, key));
      var got := AcquireRead(t, key);
      if !got {
        return None;
      }
      limiter := LookUp(t, key);
      if limiter.None? {
        limiter := GetOrInstall(t, key);
        if limiter.None? {
          return;
        }
      }
      OkAlways(trace);
      assert calls[t].pc.Limiter() == limiter;
    }
  }
}
