/** The `retry_count` column never runs ahead of the failed attempts, in any run, whatever fails or is redelivered. */
module RetryCount {
  import opened Domain
  import opened Pipeline
  import opened Decomposition
  import opened Sums

  /** A failed attempt that the worker has not yet counted in the row. */
  predicate Due(k: Worker) {
    k.Working? && (k.pc.AckFailed? || k.pc.Incrementing?)
  }

  function One(k: Worker): nat { if Due(k) then 1 else 0 }

  ghost function Dues(m: map<WorkerId, Worker>): nat {
    Sum(m, (k: Worker) => One(k))
  }

  function CountOf(s: State, j: JobId): nat {
    if j in s.rows then s.rows[j].retryCount else 0
  }

  /** For the state of a single job: what is counted, what could not be, and what is still due, has all failed. */
  ghost predicate Covered(s: State, j: JobId) {
    CountOf(s, j) + LedgerOf(s, j).missed + Dues(s.workers) <= LedgerOf(s, j).failed
  }

  lemma DuesPut(m: map<WorkerId, Worker>, w: WorkerId, k: Worker)
    ensures Dues(m[w := k]) == One(k) + Dues(m) - (if w in m then One(m[w]) else 0)
  {
    SumPut(m, (k: Worker) => One(k), w, k);
    if w in m { SumDrop(m, (k: Worker) => One(k), w); }
  }

  lemma DuesDrop(m: map<WorkerId, Worker>, w: WorkerId)
    requires w in m
    ensures Dues(m - {w}) == Dues(m) - One(m[w])
  {
    SumDrop(m, (k: Worker) => One(k), w);
  }

  /** A call of a worker counts, or gives up counting, no more than has failed. */
  lemma ActCovers(cfg: Config, s: State, w: WorkerId, out: Outcome)
    requires w in s.workers && s.workers[w].Working?
    ensures var e, k, j := EffectOf(cfg, s, w, out), s.workers[w], s.workers[w].msg.jobId;
            && (e.row.Some? ==> j in s.rows)
            && (if e.row.Some? then e.row.value.retryCount else CountOf(s, j)) + e.ledger.missed
               + (if e.next.Some? then One(e.next.value) else 0) + LedgerOf(s, j).failed
                 <= CountOf(s, j) + LedgerOf(s, j).missed + One(k) + e.ledger.failed
  {
  }

  lemma PatchCovers(s: State, w: WorkerId, e: Effect, id: CopyId, j: JobId)
    requires Covered(s, j) && w in s.workers && WorksOn(s.workers[w], j)
    requires (if e.row.Some? then e.row.value.retryCount else CountOf(s, j)) + e.ledger.missed
             + (if e.next.Some? then One(e.next.value) else 0) + LedgerOf(s, j).failed
               <= CountOf(s, j) + LedgerOf(s, j).missed + One(s.workers[w]) + e.ledger.failed
    ensures Covered(Patch(s, w, e, id), j)
  {
    if e.next.Some? { DuesPut(s.workers, w, e.next.value); } else { DuesDrop(s.workers, w); }
    assert LedgerOf(Patch(s, w, e, id), j) == e.ledger;
  }

  lemma CallCovers(cfg: Config, s: State, l: Label, j: JobId)
    requires Covered(s, j) && Enabled(s, l) && Concerns(s, l, j) && (l.Submit? || l.Api? || l.ApiDie?)
    ensures Covered(Apply(cfg, s, l), j)
  {
    assert Apply(cfg, s, l).workers == s.workers;
  }

  lemma MoveCovers(cfg: Config, s: State, l: Label, j: JobId)
    requires Covered(s, j) && Enabled(s, l) && Concerns(s, l, j)
    requires l.Expire? || l.Redeliver? || l.Deliver? || l.Crash? || l.Tick?
    ensures Covered(Apply(cfg, s, l), j)
  {
    if l.Deliver? {
      DuesPut(s.workers, l.w, Begin(l.id, s.copies[l.id].body));
    } else if l.Crash? {
      DuesDrop(s.workers, l.w);
    }
  }

  lemma CoveredStep(cfg: Config, s: State, l: Label, j: JobId)
    requires Covered(s, j) && Enabled(s, l) && Concerns(s, l, j)
    ensures Covered(Apply(cfg, s, l), j)
  {
    if l.Work? {
      ActCovers(cfg, s, l.w, l.out);
      PatchCovers(s, l.w, EffectOf(cfg, s, l.w, l.out), l.id, j);
    } else if l.Submit? || l.Api? || l.ApiDie? {
      CallCovers(cfg, s, l, j);
    } else {
      MoveCovers(cfg, s, l, j);
    }
  }

  lemma {:induction false} CoveredAlways(cfg: Config, ls: seq<Label>, j: JobId)
    requires Run(cfg, AnyFault, ls)
    ensures Covered(Restrict(cfg, Exec(cfg, ls), j), j)
  {
    if ls == [] {
      assert Restrict(cfg, Init, j) == Init;
    } else {
      CoveredAlways(cfg, ls[..|ls| - 1], j);
      var r, l, moved := LastStep(cfg, AnyFault, ls, j);
      if moved { CoveredStep(cfg, r, l, j); }
    }
  }

  /**
    Whatever fails, crashes or is redelivered, `retry_count` never exceeds the failed attempts, not even together with
    the increments that the database refused and with the failures that workers have still to count.
  */
  lemma RetryCountBounded(cfg: Config, s: State, j: JobId)
    requires Reachable(cfg, AnyFault, s) && j in s.rows
    ensures s.rows[j].retryCount + LedgerOf(s, j).missed + Dues(WorkersOn(s.workers, j)) <= LedgerOf(s, j).failed
  {
    var ls :| Run(cfg, AnyFault, ls) && Exec(cfg, ls) == s;
    CoveredAlways(cfg, ls, j);
    var r := Restrict(cfg, s, j);
    assert r.rows[j] == s.rows[j] && LedgerOf(r, j) == LedgerOf(s, j);
  }
}
