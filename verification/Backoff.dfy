/** How long the reconnect loop waits. Durations are nanoseconds in a 64-bit integer. */
module Backoff {

  const SECOND: int := 1_000_000_000
  const TWO_TO_THE_64: int := 0x1_0000_0000_0000_0000

  /** Two's complement wrap-around of `time.Duration`. */
  function Wrap(n: int): int {
    (n + TWO_TO_THE_64 / 2) % TWO_TO_THE_64 - TWO_TO_THE_64 / 2
  }

  function NextBackoff(current: int): int {
    var next := Wrap(current * 2);
    if next > 30 * SECOND then 30 * SECOND else next
  }

  /** The backoff after `n` failures. */
  function After(n: nat): int {
    if n == 0 then SECOND else NextBackoff(After(n - 1))
  }

  function Pow2(n: nat): nat { if n == 0 then 1 else 2 * Pow2(n - 1) }

  function Min(a: int, b: int): int { if a <= b then a else b }

  lemma {:induction false} Pow2Large(n: nat)
    requires n >= 5
    ensures Pow2(n) >= 32
  {
    if n > 5 {
      Pow2Large(n - 1);
    } else {
      assert Pow2(2) == 4 && Pow2(4) == 16;
    }
  }

  lemma WrapSmall(n: int)
    requires 0 <= n < TWO_TO_THE_64 / 2
    ensures Wrap(n) == n
  {
  }

  /** A 64-bit integer holds the one number of its range that differs by a multiple of 2^64. */
  lemma WrapMeans(n: int)
    ensures -0x8000_0000_0000_0000 <= Wrap(n) < 0x8000_0000_0000_0000
    ensures (Wrap(n) - n) % 0x1_0000_0000_0000_0000 == 0
  {
  }

  /** The backoff, in nanoseconds, doubles up to thirty seconds, and the doubling never overflows. */
  lemma {:induction false} BackoffIs(n: nat)
    ensures After(n) == Min(30, Pow2(n)) * 1_000_000_000
    ensures Wrap(After(n) * 2) == After(n) * 2
  {
    if n > 0 {
      BackoffIs(n - 1);
      if n >= 6 { Pow2Large(n - 1); }
      if n >= 5 { Pow2Large(n); }
      assert Pow2(2) == 4 && Pow2(4) == 16;
      CappedDouble(Pow2(n - 1));
    }
    WrapSmall(Min(30, Pow2(n)) * SECOND * 2);
  }

  lemma CappedDouble(p: nat)
    ensures NextBackoff(Min(30, p) * SECOND) == Min(30, 2 * p) * SECOND
  {
    WrapSmall(Min(30, p) * SECOND * 2);
  }

  function Total(sleeps: seq<int>): int {
    if sleeps == [] then 0 else Total(sleeps[..|sleeps| - 1]) + sleeps[|sleeps| - 1]
  }

  /** The first `n` waits. */
  function Sleeps(n: nat): seq<int> {
    if n == 0 then [] else Sleeps(n - 1) + [After(n - 1)]
  }

  /** The first `n` waits take 2^n - 1 seconds, and from the sixth on thirty seconds each. */
  lemma {:induction false} TotalSleep(n: nat)
    ensures |Sleeps(n)| == n
    ensures Total(Sleeps(n)) == (if n <= 5 then Pow2(n) - 1 else 31 + 30 * (n - 5)) * 1_000_000_000
  {
    if n > 0 {
      TotalSleep(n - 1);
      SleepIs(n - 1);
      assert Sleeps(n)[..|Sleeps(n)| - 1] == Sleeps(n - 1);
    }
  }

  lemma SleepIs(n: nat)
    ensures After(n) == (if n < 5 then Pow2(n) else 30) * 1_000_000_000
    ensures n == 4 ==> Pow2(n + 1) == 32
  {
    BackoffIs(n);
    if n >= 5 {
      Pow2Large(n);
    } else {
      assert Pow2(2) == 4 && Pow2(4) == 16;
    }
  }

  /** What one turn of the loop meets: whether somebody calls `Close` meanwhile, and how the dial and the setup go. */
  datatype Turn = Turn(closes: bool, dialed: bool, setUp: bool)

  datatype Ending = Stopped | Reconnected | StillTrying

  predicate Fails(t: Turn) { !(t.dialed && t.setUp) }

  predicate Closes(turns: seq<Turn>) { exists i :: 0 <= i < |turns| && turns[i].closes }

  /** The mutex of the connection, the channel `done`, and a call of `Close` that waits for the mutex. */
  class Connection {
    var locked: bool
    var done: bool
    var waiting: bool

    constructor ()
      ensures !locked && !done && !waiting
    {
      locked, done, waiting := false, false, false;
    }

    /** `Close` closes `done` under the mutex: at once, or when the holder lets go. */
    method Close()
      modifies this
      ensures locked == old(locked)
      ensures done == (old(done) || !old(locked)) && waiting == (old(waiting) || old(locked))
    {
      if locked {
        waiting := true;
      } else {
        done := true;
      }
    }

    method Unlock()
      modifies this
      ensures !locked && !waiting && done == (old(done) || old(waiting))
    {
      locked := false;
      if waiting {
        waiting, done := false, true;
      }
    }

    /**
      `handleReconnect` on the turns it meets. It holds the mutex, so it finds the connection closed at its start or
      never; a `Close` that comes later waits until the reconnect has succeeded.
    */
    method HandleReconnect(turns: seq<Turn>) returns (slept: seq<int>, ending: Ending)
      requires !locked && !waiting
      modifies this
      ensures |slept| <= |turns| && slept == Sleeps(|slept|)
      ensures ending.Stopped? <==> old(done)
      ensures ending.Stopped? ==> slept == []
      ensures ending.StillTrying? ==> |slept| == |turns| && forall i | 0 <= i < |turns| :: Fails(turns[i])
      ensures ending.Reconnected? ==> |slept| > 0 && !Fails(turns[|slept| - 1]) && forall i | 0 <= i < |slept| - 1 :: Fails(turns[i])
      ensures locked == ending.StillTrying?
      ensures waiting == (ending.StillTrying? && Closes(turns))
      ensures done == (old(done) || (ending.Reconnected? && Closes(turns[..|slept|])))
    {
      locked := true;
      var backoff := SECOND;
      slept := [];
      var i := 0;
      while i <= |turns|
        invariant 0 <= i <= |turns| && |slept| == i && locked && done == old(done)
        invariant i > 0 ==> !done
        invariant backoff == After(i) && slept == Sleeps(i)
        invariant forall k | 0 <= k < i :: Fails(turns[k])
        invariant waiting == Closes(turns[..i])
      {
        if done {
          Unlock();
          return slept, Stopped;
        }
        if i == |turns| {
          assert turns[..i] == turns;
          return slept, StillTrying;
        }
        slept := slept + [backoff];
        if turns[i].closes {
          Close();
        }
        ClosesSnoc(turns, i);
        if !turns[i].dialed {
          backoff := NextBackoff(backoff);
          i := i + 1;
          continue;
        }
        if !turns[i].setUp {
          backoff := NextBackoff(backoff);
          i := i + 1;
          continue;
        }
        Unlock();
        return slept, Reconnected;
      }
    }
  }

  lemma ClosesSnoc(turns: seq<Turn>, i: nat)
    requires i < |turns|
    ensures Closes(turns[..i + 1]) <==> Closes(turns[..i]) || turns[i].closes
  {
    if Closes(turns[..i]) {
      var k :| 0 <= k < i && turns[..i][k].closes;
      assert turns[..i + 1][k].closes;
    }
    if turns[i].closes {
      assert turns[..i + 1][i].closes;
    }
    if Closes(turns[..i + 1]) && !turns[i].closes {
      var k :| 0 <= k < i + 1 && turns[..i + 1][k].closes;
      assert turns[..i][k].closes;
    }
  }
}
