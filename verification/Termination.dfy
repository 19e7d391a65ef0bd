/** Every run that gets no new work comes to an end: an explicit bound on the number of steps. */
module Termination {
  import opened Domain
  import opened Pipeline
  import opened Decomposition
  import opened RetryLevels
  import opened Sums

  /** Ten steps an attempt: delivery, up to eight calls, and the return from a retry queue. */
  function MainWeight(cfg: Config, n: int): nat {
    if n > LastLevel(cfg) then 10 else 10 * (LastLevel(cfg) - n + 1)
  }

  function RestWeight(cfg: Config, n: int): nat {
    if n >= LastLevel(cfg) then 0 else 10 * (LastLevel(cfg) - n)
  }

  function CopyWeight(cfg: Config, c: Copy): nat {
    match c.place
    case Main => if c.body.Malformed? then 2 else MainWeight(cfg, c.body.msg.retryCount)
    case Retry(_) => if c.body.Malformed? then 3 else 1 + MainWeight(cfg, c.body.msg.retryCount)
    case _ => 0
  }

  function WorkerWeight(cfg: Config, k: Worker): nat {
    if k.Rejecting? then 1 else
    var n := k.msg.retryCount;
    match k.pc
    case SetProcessing => 9 + RestWeight(cfg, n)
    case EmitProcessing => 8 + RestWeight(cfg, n)
    case Generating => 7 + RestWeight(cfg, n)
    case SetFailed(_) => 6 + RestWeight(cfg, n)
    case EmitFailed(_) => 5 + RestWeight(cfg, n)
    case SetCompleted(_) => 5 + RestWeight(cfg, n)
    case EmitCompleted(_) => 2
    case AckDone => 1
    case AckFailed(_) => 4 + RestWeight(cfg, n)
    case Incrementing(_) => 3 + RestWeight(cfg, n)
    case RetryPublish => if n <= LastLevel(cfg) then 2 + MainWeight(cfg, n) else 2
    case MarkDropped(_) => 1
    case MarkExhausted(_) => 2
    case DlqPublish => 1
  }

  function CallWeight(cfg: Config, c: Call): nat {
    match c.pc
    case Inserting => 2 + MainWeight(cfg, 0)
    case Publishing => 1 + MainWeight(cfg, 0)
    case Compensating => 1
    case _ => 0
  }

  ghost function CallsLeft(cfg: Config, m: map<JobId, Call>): nat { Sum(m, (c: Call) => CallWeight(cfg, c)) }
  ghost function CopiesLeft(cfg: Config, m: map<CopyId, Copy>): nat { Sum(m, (c: Copy) => CopyWeight(cfg, c)) }
  ghost function WorkersLeft(cfg: Config, m: map<WorkerId, Worker>): nat { Sum(m, (k: Worker) => WorkerWeight(cfg, k)) }

  /** How many more steps the system can take on its own. */
  ghost function StepsLeft(cfg: Config, s: State): nat {
    CallsLeft(cfg, s.calls) + CopiesLeft(cfg, s.copies) + WorkersLeft(cfg, s.workers)
  }

  lemma CopiesPutSum(cfg: Config, m: map<CopyId, Copy>, id: CopyId, c: Copy)
    ensures CopiesLeft(cfg, m[id := c]) == CopyWeight(cfg, c) + CopiesLeft(cfg, m) - (if id in m then CopyWeight(cfg, m[id]) else 0)
  {
    SumPut(m, (c: Copy) => CopyWeight(cfg, c), id, c);
    if id in m { SumDrop(m, (c: Copy) => CopyWeight(cfg, c), id); }
  }

  lemma CopiesDropSum(cfg: Config, m: map<CopyId, Copy>, id: CopyId)
    ensures CopiesLeft(cfg, m - {id}) == CopiesLeft(cfg, m) - (if id in m then CopyWeight(cfg, m[id]) else 0)
  {
    if id in m { SumDrop(m, (c: Copy) => CopyWeight(cfg, c), id); } else { assert m - {id} == m; }
  }

  lemma WorkersPutSum(cfg: Config, m: map<WorkerId, Worker>, w: WorkerId, k: Worker)
    ensures WorkersLeft(cfg, m[w := k]) == WorkerWeight(cfg, k) + WorkersLeft(cfg, m) - (if w in m then WorkerWeight(cfg, m[w]) else 0)
  {
    SumPut(m, (k: Worker) => WorkerWeight(cfg, k), w, k);
    if w in m { SumDrop(m, (k: Worker) => WorkerWeight(cfg, k), w); }
  }

  lemma WorkersDropSum(cfg: Config, m: map<WorkerId, Worker>, w: WorkerId)
    requires w in m
    ensures WorkersLeft(cfg, m - {w}) == WorkersLeft(cfg, m) - WorkerWeight(cfg, m[w])
  {
    SumDrop(m, (k: Worker) => WorkerWeight(cfg, k), w);
  }

  lemma CallsPutSum(cfg: Config, m: map<JobId, Call>, j: JobId, c: Call)
    ensures CallsLeft(cfg, m[j := c]) == CallWeight(cfg, c) + CallsLeft(cfg, m) - (if j in m then CallWeight(cfg, m[j]) else 0)
  {
    SumPut(m, (c: Call) => CallWeight(cfg, c), j, c);
    if j in m { SumDrop(m, (c: Call) => CallWeight(cfg, c), j); }
  }

  /** A call of a worker uses up one step, whatever it publishes. */
  lemma ActWeight(cfg: Config, s: State, w: WorkerId, out: Outcome)
    requires w in s.workers && s.workers[w].Working? && WorkerLevel(cfg, s.workers[w])
    ensures var e := EffectOf(cfg, s, w, out);
            (if e.next.Some? then WorkerWeight(cfg, e.next.value) else 0) + (if e.put.Some? then CopyWeight(cfg, e.put.value) else 0) + 1
              <= WorkerWeight(cfg, s.workers[w])
  {
  }

  lemma PatchWeight(cfg: Config, s: State, w: WorkerId, e: Effect, id: CopyId)
    requires TagsOk(s) && w in s.workers && s.workers[w].Working? && Fresh(s, id)
    ensures StepsLeft(cfg, Patch(s, w, e, id)) ==
            StepsLeft(cfg, s) - WorkerWeight(cfg, s.workers[w])
            + (if e.next.Some? then WorkerWeight(cfg, e.next.value) else 0)
            + (if e.put.Some? then CopyWeight(cfg, e.put.value) else 0)
  {
    var tag := s.workers[w].tag;
    var kept := if e.ack then s.copies - {tag} else s.copies;
    CopiesDropSum(cfg, s.copies, tag);
    if e.put.Some? { CopiesPutSum(cfg, kept, id, e.put.value); }
    if e.next.Some? { WorkersPutSum(cfg, s.workers, w, e.next.value); } else { WorkersDropSum(cfg, s.workers, w); }
  }

  /** What a step may add: new work and redeliveries refill the account, every other step draws on it. */
  function Refill(cfg: Config, l: Label): nat {
    match l
    case Submit(_, _, _, _) => 2 + MainWeight(cfg, 0)
    case Inject(_, _) => 2
    case Redeliver(_, _) => MainWeight(cfg, 0)
    case _ => 0
  }

  predicate Draws(l: Label) { !l.Submit? && !l.Inject? && !l.Redeliver? && !l.Tick? }

  lemma ApiWeight(cfg: Config, s: State, j: JobId, out: Outcome, id: CopyId)
    requires j in s.calls && s.calls[j].Open() && id !in s.copies
    ensures StepsLeft(cfg, CallStep(cfg, s, j, out, id)) + 1 <= StepsLeft(cfg, s)
  {
    var t := CallStep(cfg, s, j, out, id);
    CallsPutSum(cfg, s.calls, j, t.calls[j]);
    CopiesPutSum(cfg, s.copies, id, Copy(Parsed(FirstMessage(cfg, j, s.calls[j])), Main, s.clock));
  }

  lemma MoveWeight(cfg: Config, s: State, l: Label)
    requires Levels(cfg, s) && Enabled(s, l) && (l.Inject? || l.Expire? || l.Redeliver? || l.Deliver?)
    ensures StepsLeft(cfg, Apply(cfg, s, l)) + (if Draws(l) then 1 else 0) <= StepsLeft(cfg, s) + Refill(cfg, l)
  {
    match l
    case Inject(id, bytes) => CopiesPutSum(cfg, s.copies, id, Copy(Malformed(bytes), Main, s.clock));
    case Expire(id) => CopiesPutSum(cfg, s.copies, id, s.copies[id].(place := Main, since := s.clock));
    case Redeliver(id, id') =>
      assert CopyLevel(cfg, s.copies[id]);
      CopiesDropSum(cfg, s.copies, id);
      CopiesPutSum(cfg, s.copies - {id}, id', s.copies[id].(place := Main, since := s.clock));
    case Deliver(w, id) =>
      CopiesPutSum(cfg, s.copies, id, s.copies[id].(place := Unacked));
      WorkersPutSum(cfg, s.workers, w, Begin(id, s.copies[id].body));
  }

  lemma WorkWeight(cfg: Config, s: State, w: WorkerId, out: Outcome, id: CopyId)
    requires TagsOk(s) && Levels(cfg, s) && w in s.workers && Fresh(s, id)
    ensures StepsLeft(cfg, Apply(cfg, s, Work(w, out, id))) + 1 <= StepsLeft(cfg, s)
  {
    if s.workers[w].Working? {
      ActWeight(cfg, s, w, out);
      PatchWeight(cfg, s, w, EffectOf(cfg, s, w, out), id);
    } else {
      var tag := s.workers[w].tag;
      if tag in s.copies { CopiesPutSum(cfg, s.copies, tag, s.copies[tag].(place := Dlq, since := s.clock)); }
      WorkersDropSum(cfg, s.workers, w);
    }
  }

  lemma WeightStep(cfg: Config, s: State, l: Label)
    requires TagsOk(s) && Levels(cfg, s) && Enabled(s, l)
    ensures StepsLeft(cfg, Apply(cfg, s, l)) + (if Draws(l) then 1 else 0) <= StepsLeft(cfg, s) + Refill(cfg, l)
  {
    match l
    case Submit(j, user, template, payload) => CallsPutSum(cfg, s.calls, j, Call(user, template, payload, Inserting));
    case Api(j, out, id) => ApiWeight(cfg, s, j, out, id);
    case ApiDie(j) => CallsPutSum(cfg, s.calls, j, s.calls[j].(pc := Abandoned));
    case Work(w, out, id) => WorkWeight(cfg, s, w, out, id);
    case Crash(w) => WorkersDropSum(cfg, s.workers, w);
    case Tick(_) =>
    case _ => MoveWeight(cfg, s, l);
  }

  /** Steps other than the passing of time. */
  function Moves(ls: seq<Label>): nat {
    if ls == [] then 0 else Moves(ls[..|ls| - 1]) + if ls[|ls| - 1].Tick? then 0 else 1
  }

  function Submits(ls: seq<Label>): nat {
    if ls == [] then 0 else Submits(ls[..|ls| - 1]) + if ls[|ls| - 1].Submit? then 1 else 0
  }

  function Injects(ls: seq<Label>): nat {
    if ls == [] then 0 else Injects(ls[..|ls| - 1]) + if ls[|ls| - 1].Inject? then 1 else 0
  }

  function Redeliveries(ls: seq<Label>): nat {
    if ls == [] then 0 else Redeliveries(ls[..|ls| - 1]) + if ls[|ls| - 1].Redeliver? then 1 else 0
  }

  lemma {:induction false} StepAccount(cfg: Config, ls: seq<Label>)
    requires Run(cfg, AnyFault, ls)
    ensures Moves(ls) + StepsLeft(cfg, Exec(cfg, ls)) <=
            (3 + MainWeight(cfg, 0)) * Submits(ls) + 3 * Injects(ls) + (1 + MainWeight(cfg, 0)) * Redeliveries(ls)
  {
    if ls != [] {
      var before, l := ls[..|ls| - 1], ls[|ls| - 1];
      StepAccount(cfg, before);
      RetryLevelsAlways(cfg, before);
      TagsAlways(cfg, AnyFault, before);
      WeightStep(cfg, Exec(cfg, before), l);
      var m := MainWeight(cfg, 0);
      OneMore(3 + m, Submits(before));
      OneMore(1 + m, Redeliveries(before));
    }
  }

  lemma AtMost(m: nat, k: nat, n: nat)
    requires m <= k
    ensures m * n <= k * n
  {
  }

  lemma OneMore(m: nat, n: nat)
    ensures m * (n + 1) == m * n + m
  {
  }

  /**
    A run of any interleaving, with any crashes, failed calls and failed acknowledgements, takes at most 43 steps for
    a submitted job, 3 for a malformed message and 41 for a redelivery; so with no new work and finitely many
    redeliveries it stops.
  */
  lemma RunsAreBounded(cfg: Config, ls: seq<Label>)
    requires Run(cfg, AnyFault, ls)
    ensures Moves(ls) <= 43 * Submits(ls) + 3 * Injects(ls) + 41 * Redeliveries(ls)
  {
    StepAccount(cfg, ls);
    assert MainWeight(cfg, 0) <= 40;
    AtMost(3 + MainWeight(cfg, 0), 43, Submits(ls));
    AtMost(1 + MainWeight(cfg, 0), 41, Redeliveries(ls));
  }
}
