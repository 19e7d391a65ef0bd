/** Which retry count a message can carry, by where it is; in every run, whatever fails. */
module RetryLevels {
  import opened Pipeline
  import opened Decomposition

  /** The last retry level that a message can reach: `PublishToRetry` knows three. */
  function LastLevel(cfg: Config): nat {
    if cfg.maxRetries < 0 then 0 else if cfg.maxRetries <= 3 then cfg.maxRetries else 3
  }

  predicate CopyLevel(cfg: Config, c: Copy) {
    c.body.Parsed? ==>
      var n := c.body.msg.retryCount;
      match c.place
      case Main => 0 <= n <= LastLevel(cfg)
      case Unacked => 0 <= n <= LastLevel(cfg)
      case Retry(level) => n == level && 1 <= level <= LastLevel(cfg)
      case Dlq => n == LastLevel(cfg) && cfg.maxRetries <= 3
  }

  predicate WorkerLevel(cfg: Config, k: Worker) {
    k.Working? ==>
      var n := k.msg.retryCount;
      match k.pc
      case RetryPublish => 1 <= n <= LastLevel(cfg) + 1 && n <= cfg.maxRetries
      case MarkDropped(_) => 1 <= n <= LastLevel(cfg) + 1 && n <= cfg.maxRetries
      case MarkExhausted(_) => n == LastLevel(cfg) && cfg.maxRetries <= 3
      case DlqPublish => n == LastLevel(cfg) && cfg.maxRetries <= 3
      case _ => 0 <= n <= LastLevel(cfg)
  }

  predicate Levels(cfg: Config, s: State) {
    && (forall id | id in s.copies :: CopyLevel(cfg, s.copies[id]))
    && (forall w | w in s.workers :: WorkerLevel(cfg, s.workers[w]))
  }

  lemma ActLevels(cfg: Config, s: State, w: WorkerId, out: Outcome)
    requires w in s.workers && s.workers[w].Working? && WorkerLevel(cfg, s.workers[w])
    ensures var e := EffectOf(cfg, s, w, out);
            && (e.next.Some? ==> WorkerLevel(cfg, e.next.value))
            && (e.put.Some? ==> CopyLevel(cfg, e.put.value))
  {
  }

  lemma LevelsStep(cfg: Config, s: State, l: Label)
    requires Levels(cfg, s) && TagsOk(s) && Enabled(s, l)
    ensures Levels(cfg, Apply(cfg, s, l))
  {
    if l.Work? && s.workers[l.w].Working? {
      ActLevels(cfg, s, l.w, l.out);
    }
  }

  /**
    Retry queue `k` holds only messages with retry count `k`, and `k` never exceeds the configured retries or three;
    a parsed message in the dead-letter queue has used all retries, and there is none when more than three are
    configured.
  */
  lemma {:induction false} RetryLevelsAlways(cfg: Config, ls: seq<Label>)
    requires Run(cfg, AnyFault, ls)
    ensures Levels(cfg, Exec(cfg, ls))
  {
    if ls != [] {
      RetryLevelsAlways(cfg, ls[..|ls| - 1]);
      TagsAlways(cfg, AnyFault, ls[..|ls| - 1]);
      LevelsStep(cfg, Exec(cfg, ls[..|ls| - 1]), ls[|ls| - 1]);
    }
  }

  /** Readable form of the above for one message. */
  lemma MessageLevels(cfg: Config, s: State, id: CopyId)
    requires Reachable(cfg, AnyFault, s)
    requires id in s.copies && s.copies[id].body.Parsed?
    ensures var c := s.copies[id];
            && (c.place.Retry? ==> c.body.msg.retryCount == c.place.level && 1 <= c.place.level <= 3 && c.place.level <= cfg.maxRetries)
            && (c.place.Dlq? ==> cfg.maxRetries <= 3 && c.body.msg.retryCount == if cfg.maxRetries < 0 then 0 else cfg.maxRetries)
  {
    var ls :| Run(cfg, AnyFault, ls) && Exec(cfg, ls) == s;
    RetryLevelsAlways(cfg, ls);
    assert CopyLevel(cfg, s.copies[id]);
  }

  /** With more than three retries configured, a job that keeps failing is given up at level four. */
  lemma GivenUpAtLevelFour(cfg: Config, s: State, w: WorkerId)
    requires Reachable(cfg, AnyFault, s) && cfg.maxRetries > 3
    requires w in s.workers && s.workers[w].Working?
    ensures var k := s.workers[w];
            && !k.pc.MarkExhausted? && !k.pc.DlqPublish?
            && (k.pc.RetryPublish? && k.msg.retryCount > 3 ==> k.msg.retryCount == 4 && forall out, id | Fresh(s, id) ::
                  var s' := Apply(cfg, s, Work(w, out, id));
                  w in s'.workers && s'.workers[w].Working? && s'.workers[w].pc.MarkDropped? && s'.copies == s.copies)
  {
    var ls :| Run(cfg, AnyFault, ls) && Exec(cfg, ls) == s;
    RetryLevelsAlways(cfg, ls);
    assert WorkerLevel(cfg, s.workers[w]);
    if s.workers[w].pc.RetryPublish? && s.workers[w].msg.retryCount > 3 {
      forall out, id | Fresh(s, id)
        ensures var s' := Apply(cfg, s, Work(w, out, id));
                w in s'.workers && s'.workers[w].Working? && s'.workers[w].pc.MarkDropped? && s'.copies == s.copies
      {
        TooHigh(cfg, s, w, out, id);
      }
    }
  }

  /** A publish above level three is refused, whatever the broker would say. */
  lemma TooHigh(cfg: Config, s: State, w: WorkerId, out: Outcome, id: CopyId)
    requires Enabled(s, Work(w, out, id)) && s.workers[w].Working? && s.workers[w].pc.RetryPublish? && s.workers[w].msg.retryCount > 3
    ensures var s' := Apply(cfg, s, Work(w, out, id));
            w in s'.workers && s'.workers[w].Working? && s'.workers[w].pc.MarkDropped? && s'.copies == s.copies
  {
  }
}
