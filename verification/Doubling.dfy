/** When a job can have two messages: the exact faults that double them, for each configuration. */
module Doubling {
  import opened Domain
  import opened Pipeline
  import opened Decomposition
  import opened Conservation
  import opened Lone
  import opened Stranding

  /** Places from which a message of job `j` can still be processed: a publish to come, a message, a worker between acknowledgement and republish. */
  ghost function Sources(s: State, j: JobId): nat {
    AwaitingPublish(s, j) + |CopiesAbout(s.copies, j)| + Holders(WorkersOn(s.workers, j))
  }

  ghost predicate NeverDoubles(cfg: Config, f: Faults) {
    forall s: State, j: JobId :: Reachable(cfg, f, s) ==> Sources(s, j) <= 1
  }

  /** A message, and a worker that has acknowledged and not republished. */
  lemma TwoSources(s: State, j: JobId, id: CopyId, w: WorkerId)
    requires id in s.copies && About(s.copies[id].body, j)
    requires w in s.workers && WorksOn(s.workers[w], j) && s.workers[w].pc.Holding()
    ensures Sources(s, j) >= 2
  {
    var mine, working := CopiesAbout(s.copies, j), WorkersOn(s.workers, j);
    assert id in mine && w in working && working[w] == s.workers[w];
    SizeDrop(mine, id);
    HoldersDrop(working, w);
  }

  /** An acknowledgement that fails leaves the message, and the worker goes on to republish it. */
  lemma FailedAckDoubles(cfg: Config, f: Faults, j: JobId) returns (s: State)
    requires f.ack
    ensures Reachable(cfg, f, s) && Sources(s, j) >= 2
  {
    s := Begun(cfg, f, j, Unparseable);
    s := FailedAttempt(cfg, f, s, j, Pending);
    s := NotAcknowledged(cfg, f, s, j);
    TwoSources(s, j, 0, 1);
  }

  /** A delivery that is taken from its worker is back in the queue, and the worker goes on to republish it. */
  lemma TakenDeliveryDoubles(cfg: Config, f: Faults, j: JobId) returns (s: State)
    requires f.redelivery.Anytime?
    ensures Reachable(cfg, f, s) && Sources(s, j) >= 2
  {
    s := Begun(cfg, f, j, Unparseable);
    s := Stolen(cfg, f, s, j);
    s := FailedStale(cfg, f, s, j);
    s := AckedInVain(cfg, f, s, j);
    TwoSources(s, j, 1, 1);
  }

  lemma FailedStale(cfg: Config, f: Faults, s: State, j: JobId) returns (t: State)
    requires Reachable(cfg, f, s) && s.workers == map[1 := Working(0, Message(cfg, j, Unparseable, 0), SetProcessing)]
    requires j in s.rows && s.copies.Keys == {1} && About(s.copies[1].body, j)
    ensures Reachable(cfg, f, t) && t.copies == s.copies
    ensures t.workers == map[1 := Working(0, Message(cfg, j, Unparseable, 0), AckFailed(NotRendered(BadPayload)))]
  {
    t := FailedRun(cfg, f, s, j, 1, 0);
  }

  lemma AckedInVain(cfg: Config, f: Faults, s: State, j: JobId) returns (t: State)
    requires Reachable(cfg, f, s) && s.workers == map[1 := Working(0, Message(cfg, j, Unparseable, 0), AckFailed(NotRendered(BadPayload)))]
    requires s.copies.Keys == {1} && About(s.copies[1].body, j)
    ensures Reachable(cfg, f, t) && 1 in t.copies && About(t.copies[1].body, j)
    ensures 1 in t.workers && WorksOn(t.workers[1], j) && t.workers[1].pc.Holding()
  {
    AckEffect(cfg, s, 1);
    t := WorkOn(cfg, f, s, 1, Ok, 9);
  }

  /**
    For each configuration, a job never has two messages exactly when acknowledgements succeed and no delivery is
    taken from a busy worker. No other fault doubles one.
  */
  lemma DoublingExact(cfg: Config, f: Faults)
    ensures NeverDoubles(cfg, f) <==> !f.ack && !f.redelivery.Anytime?
  {
    if f.ack {
      var s := FailedAckDoubles(cfg, f, "j");
    } else if f.redelivery.Anytime? {
      var s := TakenDeliveryDoubles(cfg, f, "j");
    } else {
      forall s: State, j: JobId | Reachable(cfg, f, s) ensures Sources(s, j) <= 1 {
        AtMostOneMessage(cfg, f, s, j);
      }
    }
  }
}
