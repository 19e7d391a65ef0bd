/** Messages and events belong to the user who created the job; in every run, whatever fails. */
module Ownership {
  import opened Domain
  import opened JobTable
  import opened Pipeline

  predicate RowOwned(cfg: Config, s: State, j: JobId)
    requires j in s.rows
  {
    && j in s.calls
    && !s.calls[j].pc.Inserting?
    && var c, r := s.calls[j], s.rows[j];
    c.user == r.userId && c.template == r.template && c.payload == r.payload && r.maxRetries == cfg.apiMaxRetries
  }

  predicate MessageOwned(rows: Table, m: JobMessage) {
    && m.jobId in rows
    && var r := rows[m.jobId];
    m.userId == r.userId && m.template == r.template && m.payload == r.payload && m.maxRetries == r.maxRetries
  }

  predicate EventOwned(rows: Table, e: JobEvent) {
    e.jobId in rows && e.userId == rows[e.jobId].userId
  }

  predicate Owned(cfg: Config, s: State) {
    && (forall j | j in s.rows :: RowOwned(cfg, s, j))
    && (forall j | j in s.calls && s.calls[j].pc.Created() :: j in s.rows)
    && (forall id | id in s.copies && s.copies[id].body.Parsed? :: MessageOwned(s.rows, s.copies[id].body.msg))
    && (forall w | w in s.workers && s.workers[w].Working? :: MessageOwned(s.rows, s.workers[w].msg))
    && (forall e | e in s.events :: EventOwned(s.rows, e))
  }

  /** `t` has the jobs of `s`, and no column that identifies a job has changed. */
  predicate Extends(s: Table, t: Table) {
    forall j | j in s :: j in t && t[j].userId == s[j].userId && t[j].template == s[j].template
                         && t[j].payload == s[j].payload && t[j].maxRetries == s[j].maxRetries
  }

  lemma ActOwned(cfg: Config, s: State, w: WorkerId, out: Outcome)
    requires w in s.workers && s.workers[w].Working? && MessageOwned(s.rows, s.workers[w].msg)
    ensures var e, k := EffectOf(cfg, s, w, out), s.workers[w];
            && (e.row.Some? ==> Extends(s.rows, s.rows[k.msg.jobId := e.row.value]))
            && (e.next.Some? ==> e.next.value.Working? && MessageOwned(s.rows, e.next.value.msg))
            && (e.put.Some? ==> e.put.value.body == Parsed(k.msg))
            && (e.event.Some? ==> EventOwned(s.rows, e.event.value))
  {
  }

  lemma PatchOwned(cfg: Config, s: State, w: WorkerId, e: Effect, id: CopyId)
    requires Owned(cfg, s) && w in s.workers && s.workers[w].Working?
    requires e.row.Some? ==> Extends(s.rows, s.rows[s.workers[w].msg.jobId := e.row.value])
    requires e.next.Some? ==> e.next.value.Working? && MessageOwned(s.rows, e.next.value.msg)
    requires e.put.Some? ==> e.put.value.body == Parsed(s.workers[w].msg)
    requires e.event.Some? ==> EventOwned(s.rows, e.event.value)
    ensures Owned(cfg, Patch(s, w, e, id))
  {
    var t := Patch(s, w, e, id);
    assert MessageOwned(s.rows, s.workers[w].msg);
    assert Extends(s.rows, t.rows);
    forall j | j in t.rows ensures RowOwned(cfg, t, j) {
      assert RowOwned(cfg, s, j);
    }
  }

  /** What a move of the API must respect: `c` is the call afterwards, `row` and `put` what it writes and publishes. */
  lemma OwnedCall(cfg: Config, s: State, j: JobId, c: Call, rows: Table, copies: map<CopyId, Copy>, leds: map<JobId, Ledger>)
    requires Owned(cfg, s) && j in s.calls
    requires !c.pc.Inserting? && c.user == s.calls[j].user && c.template == s.calls[j].template && c.payload == s.calls[j].payload
    requires Extends(s.rows, rows) && rows.Keys <= s.rows.Keys + {j}
    requires c.pc.Created() ==> j in rows
    requires j in rows && j !in s.rows ==> rows[j] == NewRow(c.user, c.template, c.payload, cfg.apiMaxRetries)
    requires forall id | id in copies && id !in s.copies :: copies[id].body.Parsed? && MessageOwned(rows, copies[id].body.msg)
    requires forall id | id in copies && id in s.copies :: copies[id] == s.copies[id]
    ensures Owned(cfg, s.(calls := s.calls[j := c], rows := rows, copies := copies, ledgers := leds))
  {
    var t := s.(calls := s.calls[j := c], rows := rows, copies := copies, ledgers := leds);
    forall i | i in t.rows ensures RowOwned(cfg, t, i) {
      if i in s.rows { assert RowOwned(cfg, s, i); }
    }
  }

  lemma OwnedApi(cfg: Config, s: State, j: JobId, out: Outcome, id: CopyId)
    requires Owned(cfg, s) && j in s.calls && s.calls[j].Open() && id !in s.copies
    ensures Owned(cfg, CallStep(cfg, s, j, out, id))
  {
    var t := CallStep(cfg, s, j, out, id);
    assert t == s.(calls := s.calls[j := t.calls[j]], rows := t.rows, copies := t.copies, ledgers := t.ledgers);
    CallOwns(cfg, s, j, out, id);
    OwnedCall(cfg, s, j, t.calls[j], t.rows, t.copies, t.ledgers);
  }

  /** What a move of the API writes and publishes respects that. */
  lemma CallOwns(cfg: Config, s: State, j: JobId, out: Outcome, id: CopyId)
    requires Owned(cfg, s) && j in s.calls && s.calls[j].Open() && id !in s.copies
    ensures var t, c := CallStep(cfg, s, j, out, id), s.calls[j];
            && t.calls[j] == c.(pc := t.calls[j].pc) && !t.calls[j].pc.Inserting?
            && Extends(s.rows, t.rows) && t.rows.Keys <= s.rows.Keys + {j}
            && (t.calls[j].pc.Created() ==> j in t.rows)
            && (j in t.rows && j !in s.rows ==> t.rows[j] == NewRow(c.user, c.template, c.payload, cfg.apiMaxRetries))
            && (forall i | i in t.copies && i !in s.copies :: t.copies[i].body.Parsed? && MessageOwned(t.rows, t.copies[i].body.msg))
            && (forall i | i in t.copies && i in s.copies :: t.copies[i] == s.copies[i])
  {
    assert j in s.rows ==> RowOwned(cfg, s, j);
  }

  lemma OwnedStep(cfg: Config, s: State, l: Label)
    requires Owned(cfg, s) && Enabled(s, l)
    ensures Owned(cfg, Apply(cfg, s, l))
  {
    match l
    case Work(w, out, id) => OwnedWork(cfg, s, w, out, id);
    case Api(j, out, id) => OwnedApi(cfg, s, j, out, id);
    case _ => OwnedMove(cfg, s, l);
  }

  lemma OwnedWork(cfg: Config, s: State, w: WorkerId, out: Outcome, id: CopyId)
    requires Owned(cfg, s) && Enabled(s, Work(w, out, id))
    ensures Owned(cfg, Apply(cfg, s, Work(w, out, id)))
  {
    if s.workers[w].Working? {
      ActOwned(cfg, s, w, out);
      PatchOwned(cfg, s, w, EffectOf(cfg, s, w, out), id);
    }
  }

  lemma OwnedMove(cfg: Config, s: State, l: Label)
    requires Owned(cfg, s) && Enabled(s, l) && !l.Work? && !l.Api?
    ensures Owned(cfg, Apply(cfg, s, l))
  {
    forall j | j in s.rows ensures j in s.calls {
      assert RowOwned(cfg, s, j);
    }
  }

  /** Every message and every event carries the user, template and payload of its row, which are those of the request. */
  lemma {:induction false} OwnedAlways(cfg: Config, ls: seq<Label>)
    requires Run(cfg, AnyFault, ls)
    ensures Owned(cfg, Exec(cfg, ls))
  {
    if ls != [] {
      OwnedAlways(cfg, ls[..|ls| - 1]);
      OwnedStep(cfg, Exec(cfg, ls[..|ls| - 1]), ls[|ls| - 1]);
    }
  }
}
