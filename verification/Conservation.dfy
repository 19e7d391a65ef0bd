/** Where the messages of a job go: an account that balances in every run, whatever fails. */
module Conservation {
  import opened Domain
  import opened Pipeline
  import opened Decomposition
  import opened Sums

  ghost function Holders(m: map<WorkerId, Worker>): nat {
    Sum(m, (k: Worker) => if k.Working? && k.pc.Holding() then 1 else 0)
  }

  function AwaitingPublish(s: State, j: JobId): nat {
    if j in s.calls && s.calls[j].pc.Publishing? then 1 else 0
  }

  function Inserted(s: State, j: JobId): nat {
    if j in s.rows then 1 else 0
  }

  /**
    Every message of job `j` is with the API, with the broker, with a worker that has acknowledged it and not passed
    it on, or has ended; an insert makes one, and an acknowledgement without effect makes one more.
  */
  ghost predicate Balanced(s: State, j: JobId) {
    var d := LedgerOf(s, j);
    AwaitingPublish(s, j) + |CopiesAbout(s.copies, j)| + Holders(WorkersOn(s.workers, j)) + d.done + d.dropped + d.lost
      == Inserted(s, j) + d.dup
  }

  // ---------------------------------------------------------------- the account of one job

  ghost predicate SoloBalanced(s: State, j: JobId) {
    var d := LedgerOf(s, j);
    AwaitingPublish(s, j) + |s.copies| + Holders(s.workers) + d.done + d.dropped + d.lost == Inserted(s, j) + d.dup
  }

  lemma HoldersPut(m: map<WorkerId, Worker>, w: WorkerId, k: Worker)
    ensures Holders(m[w := k]) ==
            (if k.Working? && k.pc.Holding() then 1 else 0) + Holders(m)
            - (if w in m && m[w].Working? && m[w].pc.Holding() then 1 else 0)
  {
    SumPut(m, (k: Worker) => if k.Working? && k.pc.Holding() then 1 else 0, w, k);
    if w in m { SumDrop(m, (k: Worker) => if k.Working? && k.pc.Holding() then 1 else 0, w); }
  }

  lemma HoldersDrop(m: map<WorkerId, Worker>, w: WorkerId)
    requires w in m
    ensures Holders(m - {w}) == Holders(m) - (if m[w].Working? && m[w].pc.Holding() then 1 else 0)
  {
    SumDrop(m, (k: Worker) => if k.Working? && k.pc.Holding() then 1 else 0, w);
  }

  lemma SizeDrop<K, V>(m: map<K, V>, k: K)
    ensures |m - {k}| == |m| - (if k in m then 1 else 0)
  {
    assert (m - {k}).Keys == m.Keys - {k};
  }

  lemma SizePut<K, V>(m: map<K, V>, k: K, v: V)
    ensures |m[k := v]| == |m| + (if k in m then 0 else 1)
  {
    assert m[k := v].Keys == m.Keys + {k};
  }

  /** What one call of a worker does to the account. */
  lemma ActBalance(cfg: Config, s: State, w: WorkerId, out: Outcome)
    requires w in s.workers && s.workers[w].Working?
    ensures var e, k, d := EffectOf(cfg, s, w, out), s.workers[w], LedgerOf(s, s.workers[w].msg.jobId);
            (if e.put.Some? then 1 else 0) - (if e.ack && k.tag in s.copies then 1 else 0)
            + (if e.next.Some? && e.next.value.Working? && e.next.value.pc.Holding() then 1 else 0) - (if k.pc.Holding() then 1 else 0)
            + e.ledger.done + e.ledger.dropped + e.ledger.lost - e.ledger.dup
              == d.done + d.dropped + d.lost - d.dup
  {
  }

  lemma KeptSize(s: State, w: WorkerId, e: Effect, id: CopyId)
    requires w in s.workers && Fresh(s, id)
    ensures |Kept(s.copies, s.workers[w].tag, e, id)| ==
            |s.copies| + (if e.put.Some? then 1 else 0) - (if e.ack && s.workers[w].tag in s.copies then 1 else 0)
  {
    var kept := if e.ack then s.copies - {s.workers[w].tag} else s.copies;
    SizeDrop(s.copies, s.workers[w].tag);
    if e.put.Some? { SizePut(kept, id, e.put.value); }
  }

  lemma NextHolders(s: State, w: WorkerId, next: Option<Worker>)
    requires w in s.workers && s.workers[w].Working?
    ensures Holders(if next.Some? then s.workers[w := next.value] else s.workers - {w}) ==
            Holders(s.workers) - (if s.workers[w].pc.Holding() then 1 else 0)
            + (if next.Some? && next.value.Working? && next.value.pc.Holding() then 1 else 0)
  {
    if next.Some? { HoldersPut(s.workers, w, next.value); } else { HoldersDrop(s.workers, w); }
  }

  lemma PatchBalance(s: State, w: WorkerId, e: Effect, id: CopyId, j: JobId)
    requires SoloBalanced(s, j) && w in s.workers && WorksOn(s.workers[w], j) && Fresh(s, id)
    requires e.row.Some? ==> j in s.rows
    requires var k, d := s.workers[w], LedgerOf(s, j);
             (if e.put.Some? then 1 else 0) - (if e.ack && k.tag in s.copies then 1 else 0)
             + (if e.next.Some? && e.next.value.Working? && e.next.value.pc.Holding() then 1 else 0) - (if k.pc.Holding() then 1 else 0)
             + e.ledger.done + e.ledger.dropped + e.ledger.lost - e.ledger.dup
               == d.done + d.dropped + d.lost - d.dup
    ensures SoloBalanced(Patch(s, w, e, id), j)
  {
    KeptSize(s, w, e, id);
    NextHolders(s, w, e.next);
    var t := Patch(s, w, e, id);
    assert LedgerOf(t, j) == e.ledger;
    assert t.copies == Kept(s.copies, s.workers[w].tag, e, id);
    assert AwaitingPublish(t, j) == AwaitingPublish(s, j) && Inserted(t, j) == Inserted(s, j);
  }

  lemma CallBalance(cfg: Config, s: State, j: JobId, out: Outcome, id: CopyId)
    requires SoloBalanced(s, j) && j in s.calls && s.calls[j].Open() && id !in s.copies
    ensures SoloBalanced(CallStep(cfg, s, j, out, id), j)
  {
    SizePut(s.copies, id, Copy(Parsed(FirstMessage(cfg, j, s.calls[j])), Main, s.clock));
  }

  lemma MoveBalance(cfg: Config, s: State, l: Label, j: JobId)
    requires SoloBalanced(s, j) && Enabled(s, l) && Concerns(s, l, j)
    requires l.Expire? || l.Redeliver? || l.Deliver?
    ensures SoloBalanced(Apply(cfg, s, l), j)
  {
    var t := Apply(cfg, s, l);
    assert LedgerOf(t, j) == LedgerOf(s, j);
    match l
    case Expire(id) => SizePut(s.copies, id, s.copies[id].(place := Main, since := s.clock));
    case Redeliver(id, id') =>
      SizeDrop(s.copies, id);
      SizePut(s.copies - {id}, id', s.copies[id].(place := Main, since := s.clock));
    case Deliver(w, id) =>
      SizePut(s.copies, id, s.copies[id].(place := Unacked));
      HoldersPut(s.workers, w, Begin(id, s.copies[id].body));
  }

  lemma CrashBalance(s: State, w: WorkerId, j: JobId)
    requires SoloBalanced(s, j) && w in s.workers && WorksOn(s.workers[w], j)
    ensures SoloBalanced(CrashStep(s, w), j)
  {
    HoldersDrop(s.workers, w);
  }

  lemma BalanceStep(cfg: Config, s: State, l: Label, j: JobId)
    requires SoloBalanced(s, j) && Solo(cfg, s, j) && Enabled(s, l) && Concerns(s, l, j)
    ensures SoloBalanced(Apply(cfg, s, l), j)
  {
    match l
    case Work(w, out, id) =>
      ActBalance(cfg, s, w, out);
      PatchBalance(s, w, EffectOf(cfg, s, w, out), id, j);
    case Api(_, out, id) => CallBalance(cfg, s, j, out, id);
    case Crash(w) => CrashBalance(s, w, j);
    case Submit(_, _, _, _) =>
    case ApiDie(_) =>
    case Tick(_) =>
    case _ => MoveBalance(cfg, s, l, j);
  }

  lemma BalancedRestricted(cfg: Config, s: State, j: JobId)
    ensures Balanced(s, j) <==> SoloBalanced(Restrict(cfg, s, j), j)
  {
    var r := Restrict(cfg, s, j);
    assert LedgerOf(r, j) == LedgerOf(s, j);
    assert AwaitingPublish(r, j) == AwaitingPublish(s, j) && Inserted(r, j) == Inserted(s, j);
  }

  /** The account of every job balances in every reachable state. */
  lemma {:induction false} Conservation(cfg: Config, ls: seq<Label>, j: JobId)
    requires Run(cfg, AnyFault, ls)
    ensures Balanced(Exec(cfg, ls), j)
  {
    if ls == [] {
      assert CopiesAbout(Init.copies, j) == map[] && WorkersOn(Init.workers, j) == map[];
    } else {
      var before := ls[..|ls| - 1];
      Conservation(cfg, before, j);
      var r, l, moved := LastStep(cfg, AnyFault, ls, j);
      BalancedRestricted(cfg, Exec(cfg, before), j);
      BalancedRestricted(cfg, Exec(cfg, ls), j);
      if moved { BalanceStep(cfg, r, l, j); }
    }
  }

  // ---------------------------------------------------------------- when nothing is duplicated or lost

  /** A worker that has not acknowledged still holds its delivery. */
  predicate TagsHeld(s: State) {
    forall w | w in s.workers :: (s.workers[w].Working? ==> s.workers[w].pc.BeforeAck()) ==> s.workers[w].tag in s.copies
  }

  lemma ActHolds(cfg: Config, s: State, w: WorkerId, out: Outcome)
    requires w in s.workers && s.workers[w].Working?
    ensures var e, k := EffectOf(cfg, s, w, out), s.workers[w];
            && (e.next.Some? ==> e.next.value.Working? && e.next.value.tag == k.tag)
            && (e.next.Some? && e.next.value.pc.BeforeAck() ==> k.pc.BeforeAck() && !e.ack)
  {
  }

  lemma HeldStep(cfg: Config, f: Faults, s: State, l: Label)
    requires TagsHeld(s) && TagsOk(s) && Enabled(s, l) && Allowed(f, s, l) && !f.redelivery.Anytime?
    ensures TagsHeld(Apply(cfg, s, l))
  {
    if l.Work? && s.workers[l.w].Working? {
      ActHolds(cfg, s, l.w, l.out);
    }
  }

  lemma {:induction false} HeldAlways(cfg: Config, f: Faults, ls: seq<Label>)
    requires Run(cfg, f, ls) && !f.redelivery.Anytime?
    ensures TagsHeld(Exec(cfg, ls))
  {
    if ls != [] {
      var before := ls[..|ls| - 1];
      HeldAlways(cfg, f, before);
      TagsAlways(cfg, f, before);
      HeldStep(cfg, f, Exec(cfg, before), ls[|ls| - 1]);
    }
  }

  /** Any fault set allows no more than `AnyFault`. */
  lemma {:induction false} FaultsWeaken(cfg: Config, f: Faults, ls: seq<Label>)
    requires Run(cfg, f, ls)
    ensures Run(cfg, AnyFault, ls)
  {
    if ls != [] { FaultsWeaken(cfg, f, ls[..|ls| - 1]); }
  }

  /** Acknowledgements succeed and no delivery is taken from a busy worker. */
  predicate Undoubled(f: Faults) {
    !f.ack && !f.redelivery.Anytime?
  }

  lemma NothingDoubledStep(cfg: Config, f: Faults, s: State, l: Label, j: JobId)
    requires TagsHeld(s) && Enabled(s, l) && Allowed(f, s, l) && Undoubled(f) && LedgerOf(s, j).dup == 0
    ensures LedgerOf(Apply(cfg, s, l), j).dup == 0
  {
    if l.Work? && s.workers[l.w].Working? {
      AckCounts(cfg, f, s, l.w, l.out);
    }
  }

  /** An acknowledgement that succeeds, of a delivery that is still there, makes no double. */
  lemma AckCounts(cfg: Config, f: Faults, s: State, w: WorkerId, out: Outcome)
    requires TagsHeld(s) && !f.ack && w in s.workers && s.workers[w].Working?
    requires MayFail(f, s.workers[w].msg, Request(s.workers[w].msg, s.workers[w].pc), out)
    ensures EffectOf(cfg, s, w, out).ledger.dup == LedgerOf(s, s.workers[w].msg.jobId).dup
  {
  }

  lemma {:induction false} NothingDoubled(cfg: Config, f: Faults, ls: seq<Label>, j: JobId)
    requires Run(cfg, f, ls) && Undoubled(f)
    ensures LedgerOf(Exec(cfg, ls), j).dup == 0
  {
    if ls != [] {
      var before := ls[..|ls| - 1];
      NothingDoubled(cfg, f, before, j);
      HeldAlways(cfg, f, before);
      NothingDoubledStep(cfg, f, Exec(cfg, before), ls[|ls| - 1], j);
    }
  }

  predicate Lossless(f: Faults) {
    Undoubled(f) && !f.crash && !f.die
  }

  lemma NothingLostStep(cfg: Config, f: Faults, s: State, l: Label, j: JobId)
    requires Enabled(s, l) && Allowed(f, s, l) && !f.crash && !f.die && LedgerOf(s, j).lost == 0
    ensures LedgerOf(Apply(cfg, s, l), j).lost == 0
  {
  }

  lemma {:induction false} NothingLost(cfg: Config, f: Faults, ls: seq<Label>, j: JobId)
    requires Run(cfg, f, ls) && !f.crash && !f.die
    ensures LedgerOf(Exec(cfg, ls), j).lost == 0
  {
    if ls != [] {
      var before := ls[..|ls| - 1];
      NothingLost(cfg, f, before, j);
      NothingLostStep(cfg, f, Exec(cfg, before), ls[|ls| - 1], j);
    }
  }

  lemma OneEntry<K, V>(m: map<K, V>, a: K, b: K)
    requires |m| <= 1 && a in m && b in m
    ensures a == b
  {
    assert |m.Keys - {a}| == |m.Keys| - 1;
    assert m.Keys - {a} == {};
    assert b in m.Keys;
  }

  /**
    When acknowledgements succeed and no delivery is taken from a busy worker, then, whatever crashes, at most one of
    these exists for a job: a publish to come, a message, a worker between acknowledgement and republish. So there
    are never two messages.
  */
  lemma AtMostOneMessage(cfg: Config, f: Faults, s: State, j: JobId)
    requires Reachable(cfg, f, s) && Undoubled(f)
    ensures AwaitingPublish(s, j) + |CopiesAbout(s.copies, j)| + Holders(WorkersOn(s.workers, j)) <= 1
    ensures forall a, b | a in s.copies && b in s.copies && About(s.copies[a].body, j) && About(s.copies[b].body, j) :: a == b
  {
    var ls :| Run(cfg, f, ls) && Exec(cfg, ls) == s;
    FaultsWeaken(cfg, f, ls);
    Conservation(cfg, ls, j);
    NothingDoubled(cfg, f, ls, j);
    forall a, b | a in s.copies && b in s.copies && About(s.copies[a].body, j) && About(s.copies[b].body, j)
      ensures a == b
    {
      OneEntry(CopiesAbout(s.copies, j), a, b);
    }
  }

  /**
    When moreover nobody crashes, a created job is in exactly one place: publish to come, message, holding worker,
    done, or dropped.
  */
  lemma ExactlyOneMessage(cfg: Config, f: Faults, s: State, j: JobId)
    requires Reachable(cfg, f, s) && Lossless(f) && j in s.rows
    ensures AwaitingPublish(s, j) + |CopiesAbout(s.copies, j)| + Holders(WorkersOn(s.workers, j))
              + LedgerOf(s, j).done + LedgerOf(s, j).dropped == 1
  {
    var ls :| Run(cfg, f, ls) && Exec(cfg, ls) == s;
    FaultsWeaken(cfg, f, ls);
    Conservation(cfg, ls, j);
    NothingDoubled(cfg, f, ls, j);
    NothingLost(cfg, f, ls, j);
  }
}
