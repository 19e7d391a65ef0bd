/** What the columns of a row say, in every run, whatever fails. */
module Columns {
  import opened Domain
  import opened Generator
  import opened JobTable
  import opened Pipeline

  predicate RowOk(cfg: Config, s: State, j: JobId)
    requires j in s.rows
  {
    && Coherent(cfg.outputDir, j, s.rows[j])
    && (s.rows[j].status.Completed? ==> PathOf(cfg.outputDir, j) in s.files)
  }

  /** A worker about to report completion has a file to show for it. */
  predicate WorkerPath(cfg: Config, files: set<string>, k: Worker) {
    k.Working? && (k.pc.SetCompleted? || k.pc.EmitCompleted?) ==>
      k.pc.path == PathOf(cfg.outputDir, k.msg.jobId) && k.pc.path in files
  }

  predicate ColumnsOk(cfg: Config, s: State) {
    && (forall j | j in s.rows :: RowOk(cfg, s, j))
    && (forall w | w in s.workers :: WorkerPath(cfg, s.files, s.workers[w]))
  }

  lemma ActColumns(cfg: Config, s: State, w: WorkerId, out: Outcome)
    requires w in s.workers && s.workers[w].Working?
    requires WorkerPath(cfg, s.files, s.workers[w])
    requires s.workers[w].msg.jobId in s.rows ==> RowOk(cfg, s, s.workers[w].msg.jobId)
    ensures var e, j := EffectOf(cfg, s, w, out), s.workers[w].msg.jobId;
            && (e.row.Some? ==> j in s.rows && Coherent(cfg.outputDir, j, e.row.value)
                                && (e.row.value.status.Completed? ==> PathOf(cfg.outputDir, j) in s.files))
            && (e.next.Some? ==> WorkerPath(cfg, if e.file.Some? then s.files + {e.file.value} else s.files, e.next.value))
  {
  }

  lemma PatchColumns(cfg: Config, s: State, w: WorkerId, e: Effect, id: CopyId)
    requires ColumnsOk(cfg, s) && w in s.workers && s.workers[w].Working?
    requires e.row.Some? ==>
      var j := s.workers[w].msg.jobId;
      && Coherent(cfg.outputDir, j, e.row.value)
      && (e.row.value.status.Completed? ==> PathOf(cfg.outputDir, j) in s.files)
    requires e.next.Some? ==> WorkerPath(cfg, if e.file.Some? then s.files + {e.file.value} else s.files, e.next.value)
    ensures ColumnsOk(cfg, Patch(s, w, e, id))
  {
    var t := Patch(s, w, e, id);
    assert s.files <= t.files;
    forall v | v in t.workers ensures WorkerPath(cfg, t.files, t.workers[v]) {
      if v != w {
        assert WorkerPath(cfg, s.files, s.workers[v]);
      }
    }
  }

  lemma ColumnsStep(cfg: Config, s: State, l: Label)
    requires ColumnsOk(cfg, s) && Enabled(s, l)
    ensures ColumnsOk(cfg, Apply(cfg, s, l))
  {
    if l.Work? && s.workers[l.w].Working? {
      ActColumns(cfg, s, l.w, l.out);
      PatchColumns(cfg, s, l.w, EffectOf(cfg, s, l.w, l.out), l.id);
    }
  }

  /** A completed row names its file, which exists; a failed row has an error; other rows have neither. */
  lemma {:induction false} ColumnsAlways(cfg: Config, ls: seq<Label>)
    requires Run(cfg, AnyFault, ls)
    ensures ColumnsOk(cfg, Exec(cfg, ls))
  {
    if ls != [] {
      ColumnsAlways(cfg, ls[..|ls| - 1]);
      ColumnsStep(cfg, Exec(cfg, ls[..|ls| - 1]), ls[|ls| - 1]);
    }
  }
}
