/** Messages that do not parse: the broker keeps each of them, in a queue, with a worker, or in the DLQ. */
module Unreadable {
  import opened Domain
  import opened Pipeline
  import opened Decomposition

  /** The messages with this body. */
  function Holding(s: State, bytes: string): set<CopyId> {
    set id | id in s.copies && s.copies[id].body == Malformed(bytes)
  }

  function InDlq(s: State, bytes: string): set<CopyId> {
    set id | id in Holding(s, bytes) && s.copies[id].place.Dlq?
  }

  /** How often this body reached the queue. */
  function Arrivals(ls: seq<Label>, bytes: string): nat {
    if ls == [] then 0
    else
      var l := ls[|ls| - 1];
      Arrivals(ls[..|ls| - 1], bytes) + if l.Inject? && l.bytes == bytes then 1 else 0
  }

  lemma WorkKeeps(cfg: Config, s: State, w: WorkerId, out: Outcome, id: CopyId, bytes: string)
    requires TagsOk(s) && Enabled(s, Work(w, out, id))
    ensures Holding(Apply(cfg, s, Work(w, out, id)), bytes) == Holding(s, bytes)
  {
    var k := s.workers[w];
    if k.Working? {
      PatchKeeps(s, w, EffectOf(cfg, s, w, out), id, bytes);
    }
  }

  lemma PatchKeeps(s: State, w: WorkerId, e: Effect, id: CopyId, bytes: string)
    requires TagsOk(s) && w in s.workers && s.workers[w].Working? && Fresh(s, id)
    requires e.put.Some? ==> e.put.value.body.Parsed?
    ensures Holding(Patch(s, w, e, id), bytes) == Holding(s, bytes)
  {
  }

  lemma CallKeeps(cfg: Config, s: State, j: JobId, out: Outcome, id: CopyId, bytes: string)
    requires Enabled(s, Api(j, out, id))
    ensures Holding(Apply(cfg, s, Api(j, out, id)), bytes) == Holding(s, bytes)
  {
  }

  lemma MoveCounts(cfg: Config, s: State, l: Label, bytes: string)
    requires Enabled(s, l) && !l.Work? && !l.Api?
    ensures |Holding(Apply(cfg, s, l), bytes)| == |Holding(s, bytes)| + if l.Inject? && l.bytes == bytes then 1 else 0
  {
    match l
    case Inject(id, b) => Arrives(s, Apply(cfg, s, l), id, b, bytes);
    case Redeliver(id, id') => ChangesId(s, Apply(cfg, s, l), id, id', bytes);
    case _ => OtherMove(cfg, s, l, bytes);
  }

  lemma Arrives(s: State, t: State, id: CopyId, b: string, bytes: string)
    requires id !in s.copies && t.copies == s.copies[id := Copy(Malformed(b), Main, s.clock)]
    ensures |Holding(t, bytes)| == |Holding(s, bytes)| + if b == bytes then 1 else 0
  {
    assert Holding(t, bytes) == if b == bytes then Holding(s, bytes) + {id} else Holding(s, bytes);
  }

  lemma ChangesId(s: State, t: State, id: CopyId, id': CopyId, bytes: string)
    requires id in s.copies && id' !in s.copies
    requires t.copies == (s.copies - {id})[id' := s.copies[id].(place := Main, since := s.clock)]
    ensures |Holding(t, bytes)| == |Holding(s, bytes)|
  {
    assert Holding(t, bytes) == if id in Holding(s, bytes) then Holding(s, bytes) - {id} + {id'} else Holding(s, bytes);
  }

  lemma OtherMove(cfg: Config, s: State, l: Label, bytes: string)
    requires Enabled(s, l) && !l.Work? && !l.Api? && !l.Inject? && !l.Redeliver?
    ensures Holding(Apply(cfg, s, l), bytes) == Holding(s, bytes)
  {
  }

  /**
    Under every fault, the broker holds exactly as many messages with a malformed body as ever arrived with it:
    no worker acknowledges one, no crash or redelivery loses or doubles one; those not in the DLQ are still live.
  */
  lemma {:induction false} UnreadableKept(cfg: Config, ls: seq<Label>, bytes: string)
    requires Run(cfg, AnyFault, ls)
    ensures |Holding(Exec(cfg, ls), bytes)| == Arrivals(ls, bytes)
    ensures (forall id | id in Holding(Exec(cfg, ls), bytes) :: !Exec(cfg, ls).copies[id].Live()) ==>
              |InDlq(Exec(cfg, ls), bytes)| == Arrivals(ls, bytes)
  {
    if ls == [] {
      assert Holding(Init, bytes) == {};
    } else {
      var before, l := ls[..|ls| - 1], ls[|ls| - 1];
      UnreadableKept(cfg, before, bytes);
      TagsAlways(cfg, AnyFault, before);
      var s := Exec(cfg, before);
      match l
      case Work(w, out, id) => WorkKeeps(cfg, s, w, out, id, bytes);
      case Api(j, out, id) => CallKeeps(cfg, s, j, out, id, bytes);
      case _ => MoveCounts(cfg, s, l, bytes);
    }
    DlqHasAll(Exec(cfg, ls), bytes);
  }

  lemma DlqHasAll(s: State, bytes: string)
    ensures (forall id | id in Holding(s, bytes) :: !s.copies[id].Live()) ==> InDlq(s, bytes) == Holding(s, bytes)
  {
  }
}
