/**
  Jobs do not disturb one another: what any run does to one job is a run of the system with that job alone. Every
  theorem about a single job is proved on such a run and holds, through `Decompose`, in every interleaving.
*/
module Decomposition {
  import opened Domain
  import opened Generator
  import opened Pipeline

  // ---------------------------------------------------------------- deliveries

  /** A tag names one delivery of one worker, and while the broker holds it the delivery is unacknowledged. */
  predicate TagsOk(s: State) {
    && (forall w | w in s.workers && s.workers[w].tag in s.copies ::
          var k := s.workers[w];
          && s.copies[k.tag].place.Unacked?
          && (k.Working? ==> About(s.copies[k.tag].body, k.msg.jobId))
          && (k.Rejecting? ==> s.copies[k.tag].body.Malformed?))
    && (forall v, w | v in s.workers && w in s.workers && s.workers[v].tag == s.workers[w].tag :: v == w)
  }

  lemma ActKeepsTag(cfg: Config, s: State, w: WorkerId, out: Outcome)
    requires w in s.workers && s.workers[w].Working?
    ensures var e, k := EffectOf(cfg, s, w, out), s.workers[w];
            && (e.next.Some? ==> e.next.value.Working? && e.next.value.tag == k.tag && e.next.value.msg.jobId == k.msg.jobId)
            && (e.put.Some? ==> e.put.value.body == Parsed(k.msg))
            && (e.event.Some? ==> e.event.value.jobId == k.msg.jobId)
            && (e.file.Some? ==> e.file.value == PathOf(cfg.outputDir, k.msg.jobId))
            && (e.ack ==> e.put.None?)
  {
  }

  lemma TagsStep(cfg: Config, s: State, l: Label)
    requires TagsOk(s) && Enabled(s, l)
    ensures TagsOk(Apply(cfg, s, l))
  {
    if l.Work? && s.workers[l.w].Working? {
      ActKeepsTag(cfg, s, l.w, l.out);
      PatchTags(s, l.w, EffectOf(cfg, s, l.w, l.out), l.id);
    }
  }

  lemma PatchTags(s: State, w: WorkerId, e: Effect, id: CopyId)
    requires TagsOk(s) && w in s.workers && s.workers[w].Working? && Fresh(s, id)
    requires e.next.Some? ==> e.next.value.Working? && e.next.value.tag == s.workers[w].tag && e.next.value.msg.jobId == s.workers[w].msg.jobId
    ensures TagsOk(Patch(s, w, e, id))
  {
  }

  lemma {:induction false} TagsAlways(cfg: Config, f: Faults, ls: seq<Label>)
    requires Run(cfg, f, ls)
    ensures TagsOk(Exec(cfg, ls))
  {
    if ls != [] {
      TagsAlways(cfg, f, ls[..|ls| - 1]);
      TagsStep(cfg, Exec(cfg, ls[..|ls| - 1]), ls[|ls| - 1]);
    }
  }

  // ---------------------------------------------------------------- one job of many

  function EventsOf(events: seq<JobEvent>, j: JobId): seq<JobEvent> {
    if events == [] then []
    else
      var rest := EventsOf(events[..|events| - 1], j);
      if events[|events| - 1].jobId == j then rest + [events[|events| - 1]] else rest
  }

  lemma EventsOfSnoc(events: seq<JobEvent>, e: JobEvent, j: JobId)
    ensures EventsOf(events + [e], j) == if e.jobId == j then EventsOf(events, j) + [e] else EventsOf(events, j)
  {
    assert (events + [e])[..|events|] == events;
  }

  function CopiesAbout(m: map<CopyId, Copy>, j: JobId): map<CopyId, Copy> {
    map id | id in m && About(m[id].body, j) :: m[id]
  }

  lemma CopiesPut(m: map<CopyId, Copy>, id: CopyId, c: Copy, j: JobId)
    ensures CopiesAbout(m[id := c], j) ==
            if About(c.body, j) then CopiesAbout(m, j)[id := c] else CopiesAbout(m, j) - {id}
  {
  }

  lemma CopiesDrop(m: map<CopyId, Copy>, id: CopyId, j: JobId)
    ensures CopiesAbout(m - {id}, j) == CopiesAbout(m, j) - {id}
  {
  }

  function WorkersOn(m: map<WorkerId, Worker>, j: JobId): map<WorkerId, Worker> {
    map w | w in m && WorksOn(m[w], j) :: m[w]
  }

  lemma WorkersPut(m: map<WorkerId, Worker>, w: WorkerId, k: Worker, j: JobId)
    ensures WorkersOn(m[w := k], j) ==
            if WorksOn(k, j) then WorkersOn(m, j)[w := k] else WorkersOn(m, j) - {w}
  {
  }

  lemma WorkersDrop(m: map<WorkerId, Worker>, w: WorkerId, j: JobId)
    ensures WorkersOn(m - {w}, j) == WorkersOn(m, j) - {w}
  {
  }

  function Single<K, V>(m: map<K, V>, k: K): map<K, V> {
    if k in m then map[k := m[k]] else map[]
  }

  lemma SinglePut<K, V>(m: map<K, V>, k: K, v: V, j: K)
    ensures Single(m[k := v], j) == if k == j then Single(m, j)[k := v] else Single(m, j)
  {
  }

  lemma DropAbsent<K, V>(m: map<K, V>, k: K)
    requires k !in m
    ensures m - {k} == m
  {
  }

  /** The part of the system that concerns job `j`. */
  function Restrict(cfg: Config, s: State, j: JobId): State {
    State(
      Single(s.calls, j),
      Single(s.rows, j),
      CopiesAbout(s.copies, j),
      WorkersOn(s.workers, j),
      EventsOf(s.events, j),
      s.files * {PathOf(cfg.outputDir, j)},
      Single(s.ledgers, j),
      s.clock)
  }

  /** The step moves job `j`, or the clock. */
  predicate Concerns(s: State, l: Label, j: JobId)
    requires Enabled(s, l)
  {
    match l
    case Submit(i, _, _, _) => i == j
    case Api(i, _, _) => i == j
    case ApiDie(i) => i == j
    case Inject(_, _) => false
    case Expire(id) => About(s.copies[id].body, j)
    case Redeliver(id, _) => About(s.copies[id].body, j)
    case Deliver(_, id) => About(s.copies[id].body, j)
    case Work(w, _, _) => WorksOn(s.workers[w], j)
    case Crash(w) => WorksOn(s.workers[w], j)
    case Tick(_) => true
  }

  // How the restriction meets the single changes that steps are made of.

  lemma RestrictFresh(cfg: Config, s: State, j: JobId, id: CopyId)
    requires Fresh(s, id)
    ensures Fresh(Restrict(cfg, s, j), id)
  {
  }

  lemma RestrictEnabled(cfg: Config, s: State, l: Label, j: JobId)
    requires Enabled(s, l) && Concerns(s, l, j)
    ensures Enabled(Restrict(cfg, s, j), l)
  {
    match l
    case Expire(id) =>
      var r := Restrict(cfg, s, j);
      assert r.copies[id] == s.copies[id];
      forall o | o in r.copies && r.copies[o].place == r.copies[id].place
        ensures r.copies[id].since <= r.copies[o].since
      {
        assert s.copies[o].place == s.copies[id].place;
      }
    case _ =>
  }

  lemma RestrictAllowed(cfg: Config, f: Faults, s: State, l: Label, j: JobId)
    requires Enabled(s, l) && Concerns(s, l, j) && Allowed(f, s, l)
    ensures Allowed(f, Restrict(cfg, s, j), l)
  {
    if l.Api? {
      assert Restrict(cfg, s, j).calls[j] == s.calls[j];
    }
  }

  lemma RestrictEffect(cfg: Config, s: State, w: WorkerId, out: Outcome, j: JobId)
    requires TagsOk(s) && w in s.workers && WorksOn(s.workers[w], j)
    ensures w in Restrict(cfg, s, j).workers && Restrict(cfg, s, j).workers[w] == s.workers[w]
    ensures EffectOf(cfg, Restrict(cfg, s, j), w, out) == EffectOf(cfg, s, w, out)
  {
    var k := s.workers[w];
    assert k.tag in Restrict(cfg, s, j).copies <==> k.tag in s.copies;
  }

  function Kept(copies: map<CopyId, Copy>, tag: CopyId, e: Effect, id: CopyId): map<CopyId, Copy> {
    var kept := if e.ack then copies - {tag} else copies;
    if e.put.Some? then kept[id := e.put.value] else kept
  }

  /** The message broker after a worker's call, seen by job `j`. */
  lemma RestrictKept(s: State, w: WorkerId, e: Effect, id: CopyId, j: JobId)
    requires w in s.workers && s.workers[w].Working? && Fresh(s, id) && TagsOk(s)
    requires e.put.Some? ==> About(e.put.value.body, s.workers[w].msg.jobId)
    ensures CopiesAbout(Kept(s.copies, s.workers[w].tag, e, id), j) ==
            if WorksOn(s.workers[w], j) then Kept(CopiesAbout(s.copies, j), s.workers[w].tag, e, id)
            else CopiesAbout(s.copies, j)
  {
    var tag := s.workers[w].tag;
    var kept := if e.ack then s.copies - {tag} else s.copies;
    CopiesDrop(s.copies, tag, j);
    if e.put.Some? {
      CopiesPut(kept, id, e.put.value, j);
    }
    if !WorksOn(s.workers[w], j) {
      DropAbsent(CopiesAbout(s.copies, j), tag);
      DropAbsent(CopiesAbout(s.copies, j), id);
    }
  }

  lemma RestrictNext(s: State, w: WorkerId, next: Option<Worker>, j: JobId)
    requires w in s.workers && s.workers[w].Working?
    requires next.Some? ==> WorksOn(next.value, s.workers[w].msg.jobId)
    ensures WorkersOn(if next.Some? then s.workers[w := next.value] else s.workers - {w}, j) ==
            if !WorksOn(s.workers[w], j) then WorkersOn(s.workers, j)
            else if next.Some? then WorkersOn(s.workers, j)[w := next.value] else WorkersOn(s.workers, j) - {w}
  {
    WorkersDrop(s.workers, w, j);
    if next.Some? {
      WorkersPut(s.workers, w, next.value, j);
    }
    if !WorksOn(s.workers[w], j) {
      DropAbsent(WorkersOn(s.workers, j), w);
    }
  }

  /** The tables, the event bus and the files after a worker's call, seen by job `j`. */
  lemma RestrictTables(cfg: Config, s: State, w: WorkerId, e: Effect, id: CopyId, j: JobId)
    requires w in s.workers && s.workers[w].Working?
    requires e.event.Some? ==> e.event.value.jobId == s.workers[w].msg.jobId
    requires e.file.Some? ==> (e.file.value == PathOf(cfg.outputDir, j) <==> WorksOn(s.workers[w], j))
    ensures var r, t, own := Restrict(cfg, s, j), Restrict(cfg, Patch(s, w, e, id), j), WorksOn(s.workers[w], j);
            && t.calls == r.calls
            && t.rows == (if own && e.row.Some? then r.rows[j := e.row.value] else r.rows)
            && t.ledgers == (if own then r.ledgers[j := e.ledger] else r.ledgers)
            && t.events == (if own && e.event.Some? then r.events + [e.event.value] else r.events)
            && t.files == (if own && e.file.Some? then r.files + {e.file.value} else r.files)
            && t.clock == r.clock
  {
    if e.event.Some? {
      EventsOfSnoc(s.events, e.event.value, j);
    }
    if e.row.Some? {
      SinglePut(s.rows, s.workers[w].msg.jobId, e.row.value, j);
    }
    SinglePut(s.ledgers, s.workers[w].msg.jobId, e.ledger, j);
  }

  /** A worker's call, seen by its own job and by every other job. */
  lemma RestrictPatch(cfg: Config, s: State, w: WorkerId, e: Effect, id: CopyId, j: JobId)
    requires TagsOk(s) && w in s.workers && s.workers[w].Working? && Fresh(s, id)
    requires e.next.Some? ==> WorksOn(e.next.value, s.workers[w].msg.jobId)
    requires e.put.Some? ==> About(e.put.value.body, s.workers[w].msg.jobId)
    requires e.event.Some? ==> e.event.value.jobId == s.workers[w].msg.jobId
    requires e.file.Some? ==> (e.file.value == PathOf(cfg.outputDir, j) <==> WorksOn(s.workers[w], j))
    ensures Restrict(cfg, Patch(s, w, e, id), j) ==
            if WorksOn(s.workers[w], j) then Patch(Restrict(cfg, s, j), w, e, id) else Restrict(cfg, s, j)
  {
    RestrictTables(cfg, s, w, e, id, j);
    RestrictKept(s, w, e, id, j);
    RestrictNext(s, w, e.next, j);
    assert Patch(s, w, e, id).copies == Kept(s.copies, s.workers[w].tag, e, id);
    if WorksOn(s.workers[w], j) {
      var r := Restrict(cfg, s, j);
      assert r.workers[w] == s.workers[w];
      assert Patch(r, w, e, id).copies == Kept(r.copies, s.workers[w].tag, e, id);
    }
  }

  lemma RestrictWork(cfg: Config, s: State, w: WorkerId, out: Outcome, id: CopyId, j: JobId)
    requires TagsOk(s) && w in s.workers && s.workers[w].Working? && Fresh(s, id)
    ensures WorksOn(s.workers[w], j) ==>
      Restrict(cfg, Apply(cfg, s, Work(w, out, id)), j) == Apply(cfg, Restrict(cfg, s, j), Work(w, out, id))
    ensures !WorksOn(s.workers[w], j) ==>
      Restrict(cfg, Apply(cfg, s, Work(w, out, id)), j) == Restrict(cfg, s, j)
  {
    var e := EffectOf(cfg, s, w, out);
    ActKeepsTag(cfg, s, w, out);
    if WorksOn(s.workers[w], j) {
      RestrictFresh(cfg, s, j, id);
      RestrictEffect(cfg, s, w, out, j);
    } else if e.file.Some? && e.file.value == PathOf(cfg.outputDir, j) {
      PathInjective(cfg.outputDir, s.workers[w].msg.jobId, j);
    }
    RestrictPatch(cfg, s, w, e, id, j);
  }

  /** A move of the API on job `i`, seen by job `j`. */
  lemma RestrictCallPatch(cfg: Config, s: State, i: JobId, e: CallEffect, id: CopyId, j: JobId)
    requires i in s.calls
    requires e.put.Some? ==> About(e.put.value.body, i) && id !in s.copies
    ensures Restrict(cfg, CallPatch(s, i, e, id), j) ==
            if i == j then CallPatch(Restrict(cfg, s, j), i, e, id) else Restrict(cfg, s, j)
  {
    SinglePut(s.calls, i, s.calls[i].(pc := e.pc), j);
    SinglePut(s.ledgers, i, e.ledger, j);
    if e.row.Some? { SinglePut(s.rows, i, e.row.value, j); }
    if e.put.Some? {
      CopiesPut(s.copies, id, e.put.value, j);
      DropAbsent(CopiesAbout(s.copies, j), id);
    }
  }

  /** The moves of the message broker. */
  lemma RestrictMoves(cfg: Config, s: State, l: Label, j: JobId)
    requires TagsOk(s) && Enabled(s, l)
    requires l.Inject? || l.Expire? || l.Redeliver? || l.Deliver?
    requires Concerns(s, l, j) ==> Enabled(Restrict(cfg, s, j), l)
    ensures Restrict(cfg, Apply(cfg, s, l), j) ==
            if Concerns(s, l, j) then Apply(cfg, Restrict(cfg, s, j), l) else Restrict(cfg, s, j)
  {
    match l
    case Inject(id, bytes) =>
      CopiesPut(s.copies, id, Copy(Malformed(bytes), Main, s.clock), j);
      DropAbsent(CopiesAbout(s.copies, j), id);
    case Expire(id) =>
      CopiesPut(s.copies, id, s.copies[id].(place := Main, since := s.clock), j);
      if !Concerns(s, l, j) { DropAbsent(CopiesAbout(s.copies, j), id); }
    case Redeliver(id, id') =>
      CopiesDrop(s.copies, id, j);
      CopiesPut(s.copies - {id}, id', s.copies[id].(place := Main, since := s.clock), j);
      if !Concerns(s, l, j) {
        DropAbsent(CopiesAbout(s.copies, j), id);
        DropAbsent(CopiesAbout(s.copies, j), id');
      }
    case Deliver(w, id) =>
      CopiesPut(s.copies, id, s.copies[id].(place := Unacked), j);
      WorkersPut(s.workers, w, Begin(id, s.copies[id].body), j);
      if !Concerns(s, l, j) {
        DropAbsent(CopiesAbout(s.copies, j), id);
        DropAbsent(WorkersOn(s.workers, j), w);
      }
  }

  lemma CrashOwn(cfg: Config, s: State, w: WorkerId, j: JobId)
    requires w in s.workers && WorksOn(s.workers[w], j)
    ensures var r := Restrict(cfg, s, j); w in r.workers && r.workers[w] == s.workers[w] && LedgerOf(r, j) == LedgerOf(s, j)
  {
  }

  lemma RestrictOwnCrash(cfg: Config, s: State, w: WorkerId, j: JobId)
    requires w in s.workers && WorksOn(s.workers[w], j) && w in Restrict(cfg, s, j).workers
    ensures Restrict(cfg, CrashStep(s, w), j) == CrashStep(Restrict(cfg, s, j), w)
  {
    WorkersDrop(s.workers, w, j);
    CrashOwn(cfg, s, w, j);
    var led := LedgerOf(s, j);
    SinglePut(s.ledgers, j, led.(lost := led.lost + 1), j);
  }

  lemma RestrictOtherCrash(cfg: Config, s: State, w: WorkerId, j: JobId)
    requires w in s.workers && !WorksOn(s.workers[w], j)
    ensures Restrict(cfg, CrashStep(s, w), j) == Restrict(cfg, s, j)
  {
    WorkersDrop(s.workers, w, j);
    DropAbsent(WorkersOn(s.workers, j), w);
    var k := s.workers[w];
    if k.Working? {
      var led := LedgerOf(s, k.msg.jobId);
      SinglePut(s.ledgers, k.msg.jobId, led.(lost := led.lost + 1), j);
    }
  }

  lemma RestrictCrash(cfg: Config, s: State, w: WorkerId, j: JobId)
    requires w in s.workers && (WorksOn(s.workers[w], j) ==> w in Restrict(cfg, s, j).workers)
    ensures Restrict(cfg, CrashStep(s, w), j) ==
            if WorksOn(s.workers[w], j) then CrashStep(Restrict(cfg, s, j), w) else Restrict(cfg, s, j)
  {
    if WorksOn(s.workers[w], j) {
      RestrictOwnCrash(cfg, s, w, j);
    } else {
      RestrictOtherCrash(cfg, s, w, j);
    }
  }

  lemma RestrictReject(cfg: Config, s: State, w: WorkerId, out: Outcome, j: JobId)
    requires TagsOk(s) && w in s.workers && s.workers[w].Rejecting?
    ensures Restrict(cfg, RejectStep(s, w, out), j) == Restrict(cfg, s, j)
  {
    var tag := s.workers[w].tag;
    if tag in s.copies {
      CopiesPut(s.copies, tag, s.copies[tag].(place := Dlq, since := s.clock), j);
      DropAbsent(CopiesAbout(s.copies, j), tag);
    }
    WorkersDrop(s.workers, w, j);
    DropAbsent(WorkersOn(s.workers, j), w);
  }

  /** A step moves job `j` exactly as it would with no other job about, or leaves it alone. */
  lemma RestrictStep(cfg: Config, s: State, l: Label, j: JobId)
    requires TagsOk(s) && Enabled(s, l)
    ensures Restrict(cfg, Apply(cfg, s, l), j) ==
            if Concerns(s, l, j) then Apply(cfg, Restrict(cfg, s, j), l) else Restrict(cfg, s, j)
  {
    if Concerns(s, l, j) {
      RestrictEnabled(cfg, s, l, j);
    }
    if l.Submit? || l.Api? || l.ApiDie? {
      RestrictCalls(cfg, s, l, j);
    } else if l.Work? {
      RestrictWorker(cfg, s, l, j);
    } else if l.Crash? {
      RestrictCrash(cfg, s, l.w, j);
    } else if !l.Tick? {
      RestrictMoves(cfg, s, l, j);
    }
  }

  lemma RestrictCalls(cfg: Config, s: State, l: Label, j: JobId)
    requires TagsOk(s) && Enabled(s, l) && (l.Submit? || l.Api? || l.ApiDie?)
    requires Concerns(s, l, j) ==> Enabled(Restrict(cfg, s, j), l)
    ensures Restrict(cfg, Apply(cfg, s, l), j) ==
            if Concerns(s, l, j) then Apply(cfg, Restrict(cfg, s, j), l) else Restrict(cfg, s, j)
  {
    match l
    case Submit(i, user, template, payload) => SinglePut(s.calls, i, Call(user, template, payload, Inserting), j);
    case Api(i, out, id) =>
      RestrictCallPatch(cfg, s, i, CallAct(cfg, i, s.calls[i], RowOf(s, i), LedgerOf(s, i), out, s.clock), id, j);
    case ApiDie(i) => RestrictCallPatch(cfg, s, i, DieAct(s.calls[i], LedgerOf(s, i)), 0, j);
  }

  lemma RestrictWorker(cfg: Config, s: State, l: Label, j: JobId)
    requires TagsOk(s) && Enabled(s, l) && l.Work?
    ensures Restrict(cfg, Apply(cfg, s, l), j) ==
            if Concerns(s, l, j) then Apply(cfg, Restrict(cfg, s, j), l) else Restrict(cfg, s, j)
  {
    if s.workers[l.w].Working? {
      RestrictWork(cfg, s, l.w, l.out, l.id, j);
    } else {
      RestrictReject(cfg, s, l.w, l.out, j);
    }
  }

  /** The steps of the run that concern job `j`. */
  function Own(cfg: Config, ls: seq<Label>, j: JobId): seq<Label> {
    if ls == [] then []
    else
      var before, l := Exec(cfg, ls[..|ls| - 1]), ls[|ls| - 1];
      var own := Own(cfg, ls[..|ls| - 1], j);
      if Enabled(before, l) && Concerns(before, l, j) then own + [l] else own
  }

  /**
    The steps of a run that concern one job are, by themselves, a run under the same faults, and they bring the
    job to the same state.
  */
  lemma {:induction false} Decompose(cfg: Config, f: Faults, ls: seq<Label>, j: JobId)
    requires Run(cfg, f, ls)
    ensures Run(cfg, f, Own(cfg, ls, j))
    ensures Exec(cfg, Own(cfg, ls, j)) == Restrict(cfg, Exec(cfg, ls), j)
  {
    if ls == [] {
      assert Restrict(cfg, Init, j) == Init;
    } else {
      var prefix, l := ls[..|ls| - 1], ls[|ls| - 1];
      var before := Exec(cfg, prefix);
      Decompose(cfg, f, prefix, j);
      TagsAlways(cfg, f, prefix);
      RestrictStep(cfg, before, l, j);
      if Concerns(before, l, j) {
        RestrictEnabled(cfg, before, l, j);
        RestrictAllowed(cfg, f, before, l, j);
        RunSnoc(cfg, f, Own(cfg, prefix, j), l);
      }
    }
  }

  /** A state that holds nothing but job `j`. */
  predicate Solo(cfg: Config, s: State, j: JobId) {
    && s.calls.Keys <= {j} && s.rows.Keys <= {j} && s.ledgers.Keys <= {j}
    && s.files <= {PathOf(cfg.outputDir, j)}
    && (forall id | id in s.copies :: About(s.copies[id].body, j))
    && (forall w | w in s.workers :: WorksOn(s.workers[w], j))
    && (forall i | 0 <= i < |s.events| :: s.events[i].jobId == j)
  }

  lemma {:induction false} EventsOfOwn(events: seq<JobEvent>, j: JobId)
    ensures forall e | e in EventsOf(events, j) :: e in events && e.jobId == j
  {
    if events != [] { EventsOfOwn(events[..|events| - 1], j); }
  }

  lemma RestrictSolo(cfg: Config, s: State, j: JobId)
    ensures Solo(cfg, Restrict(cfg, s, j), j)
  {
    EventsOfOwn(s.events, j);
  }

  lemma RestrictTags(cfg: Config, s: State, j: JobId)
    requires TagsOk(s)
    ensures TagsOk(Restrict(cfg, s, j))
  {
  }

  lemma ConcernsRestricted(cfg: Config, s: State, l: Label, j: JobId)
    requires Enabled(s, l) && Concerns(s, l, j) && Enabled(Restrict(cfg, s, j), l)
    ensures Concerns(Restrict(cfg, s, j), l, j)
  {
  }

  /** The last step of a run, as job `j` sees it: `moved` says whether it concerned the job. */
  lemma LastStep(cfg: Config, f: Faults, ls: seq<Label>, j: JobId) returns (r: State, l: Label, moved: bool)
    requires Run(cfg, f, ls) && ls != []
    ensures r == Restrict(cfg, Exec(cfg, ls[..|ls| - 1]), j) && Solo(cfg, r, j) && TagsOk(r)
    ensures l == ls[|ls| - 1]
    ensures Restrict(cfg, Exec(cfg, ls), j) == if moved then Apply(cfg, r, l) else r
    ensures Enabled(Exec(cfg, ls[..|ls| - 1]), l) && moved == Concerns(Exec(cfg, ls[..|ls| - 1]), l, j)
    ensures moved ==> Enabled(r, l) && Allowed(f, r, l) && Concerns(r, l, j)
  {
    var before := ls[..|ls| - 1];
    var s := Exec(cfg, before);
    l := ls[|ls| - 1];
    r := Restrict(cfg, s, j);
    moved := Concerns(s, l, j);
    TagsAlways(cfg, f, before);
    RestrictTags(cfg, s, j);
    RestrictStep(cfg, s, l, j);
    RestrictSolo(cfg, s, j);
    if moved {
      RestrictEnabled(cfg, s, l, j);
      RestrictAllowed(cfg, f, s, l, j);
      ConcernsRestricted(cfg, s, l, j);
    }
  }
}
