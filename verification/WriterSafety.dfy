/** No record is lost: the stored checkpoints never run ahead of the stored files, over every run of
    invocations, crashes and failed calls in which each rollback's final saves land. */
module WriterSafety {
  import opened Wrappers
  import opened WriterModel

  // ---- coverage ----

  ghost predicate SubFiles(small: map<Path, set<nat>>, big: map<Path, set<nat>>) {
    forall p :: p in small ==> p in big && big[p] == small[p]
  }

  lemma CoveredGrows(small: map<Path, set<nat>>, big: map<Path, set<nat>>, n: nat)
    requires SubFiles(small, big) && Covered(small, n)
    ensures Covered(big, n)
  {
    forall r: nat | r < n ensures Holds(big, r) {
      assert Holds(small, r);
      var p :| p in small && r in small[p];
      assert p in big && r in big[p];
    }
  }

  // ---- what every run keeps, whatever the environment does ----

  predicate WithinJob(job: Job, c: Option<Checkpoint>) {
    c.Some? ==> c.value.offset <= job.total
  }

  /** Offsets stay ordered and within the job. */
  ghost predicate Offsets(job: Job, s: State) {
    && WithinJob(job, s.s3) && WithinJob(job, s.mirror)
    && s.resume <= s.offset <= job.total && s.end <= job.total
    && (!job.mirrored ==> s.mirror == None)
    && ((s.phase.Mirroring? || s.phase.RollbackMirror? || s.phase.ClearingMirror?) ==> job.mirrored)
    && (s.phase == Starting ==> s.offset < job.total)
    && ((s.phase.InBatch? || s.phase.Written?) ==> s.offset <= s.end)
    && ((s.phase.Clearing? || s.phase.ClearingMirror?) ==> s.offset >= job.total)
  }

  /** Manifests stay empty and the paths a rollback deletes are files of its own invocation. */
  ghost predicate Paths(s: State) {
    && ManifestOf(s.s3) == [] && ManifestOf(s.mirror) == [] && ManifestOf(s.checkpoint) == []
    && s.manifest == []
    && ToSet(s.tracked) <= s.mine && ToSet(s.todo) <= s.mine
  }

  ghost predicate Bookkeeping(job: Job, s: State) { Offsets(job, s) && Paths(s) }

  lemma DoomedIsMine(s: State)
    requires Paths(s)
    ensures ToSet(Doomed(s)) == ToSet(s.tracked)
  {
    assert ManifestOf(s.checkpoint) + s.tracked == s.tracked;
  }

  lemma OffsetsStep(job: Job, s: State, a: Action)
    requires job.Valid() && Offsets(job, s) && Enabled(job, s, a)
    ensures Offsets(job, Apply(job, s, a))
  {
    if !a.Begin? {
      OffsetsWithin(job, s, a);
    }
  }

  /** The steps of one invocation. */
  lemma OffsetsWithin(job: Job, s: State, a: Action)
    requires job.Valid() && Offsets(job, s) && Enabled(job, s, a) && !a.Begin?
    ensures Offsets(job, Apply(job, s, a))
  {
    if a.Save? || a.Mirror? || a.FinalSave? || a.FinalMirror? || a.ClearS3? || a.ClearMirror? {
      OffsetsStored(job, s, a);
    } else {
      OffsetsMoved(job, s, a);
    }
  }

  /** The steps that write to the stores. */
  lemma OffsetsStored(job: Job, s: State, a: Action)
    requires Offsets(job, s) && Enabled(job, s, a)
    requires a.Save? || a.Mirror? || a.FinalSave? || a.FinalMirror? || a.ClearS3? || a.ClearMirror?
    ensures Offsets(job, Apply(job, s, a))
  {
    var t := Apply(job, s, a);
    assert t.resume == s.resume && t.offset == s.offset && t.end == s.end;
  }

  /** The steps that do not. */
  lemma OffsetsMoved(job: Job, s: State, a: Action)
    requires job.Valid() && Offsets(job, s) && Enabled(job, s, a) && !a.Begin?
    requires !a.Save? && !a.Mirror? && !a.FinalSave? && !a.FinalMirror? && !a.ClearS3? && !a.ClearMirror?
    ensures Offsets(job, Apply(job, s, a))
  {
    var t := Apply(job, s, a);
    assert t.s3 == s.s3 && t.mirror == s.mirror && t.resume == s.resume;
  }

  lemma PathsStep(job: Job, s: State, a: Action)
    requires Paths(s) && Enabled(job, s, a)
    ensures Paths(Apply(job, s, a))
  {
    match a {
      case Track(ps) =>
        assert ToSet(s.tracked + ps) == ToSet(s.tracked) + ToSet(ps);
      case DeleteOne(_) =>
        assert ToSet(s.todo[1..]) <= ToSet(s.todo);
      case FinalSave(_) =>
        DoomedIsMine(s);
      case _ =>
    }
  }

  lemma BookkeepingStep(job: Job, s: State, a: Action)
    requires job.Valid() && Bookkeeping(job, s) && Enabled(job, s, a)
    ensures Bookkeeping(job, Apply(job, s, a))
  {
    OffsetsStep(job, s, a);
    PathsStep(job, s, a);
  }

  lemma {:induction false} BookkeepingAlways(job: Job, s: State, acts: seq<Action>, env: Env)
    requires job.Valid() && Bookkeeping(job, s) && Legal(job, s, acts, env)
    ensures Bookkeeping(job, Exec(job, s, acts))
  {
    if acts != [] {
      var before := acts[..|acts| - 1];
      BookkeepingAlways(job, s, before, env);
      BookkeepingStep(job, Exec(job, s, before), acts[|acts| - 1]);
    }
  }

  /** Every checkpoint a run can reach, stored or in memory, has an empty manifest. */
  lemma {:induction false} ManifestAlwaysEmpty(job: Job, s: State, acts: seq<Action>, env: Env)
    requires job.Valid() && Init(s) && Legal(job, s, acts, env)
    ensures var t := Exec(job, s, acts);
            ManifestOf(t.s3) == [] && ManifestOf(t.mirror) == [] && ManifestOf(t.checkpoint) == []
  {
    BookkeepingAlways(job, s, acts, env);
  }

  // ---- files that predate an invocation ----

  /** The files of `base` are still stored unchanged and are not this invocation's to delete. */
  ghost predicate Survive(base: map<Path, set<nat>>, s: State) {
    SubFiles(base, s.files) && (Live(s) ==> base.Keys !! s.mine)
  }

  lemma SurviveStep(job: Job, base: map<Path, set<nat>>, s: State, a: Action)
    requires job.Valid() && Bookkeeping(job, s) && Enabled(job, s, a) && Survive(base, s)
    ensures Survive(base, Apply(job, s, a))
  {
    if a.DeleteOne? && a.landed {
      assert s.todo[0] in ToSet(s.todo);
      assert s.todo[0] in s.mine;
    }
  }

  lemma {:induction false} SurviveAlways(
    job: Job, base: map<Path, set<nat>>, s: State, acts: seq<Action>, env: Env)
    requires job.Valid() && Bookkeeping(job, s) && Survive(base, s) && Legal(job, s, acts, env)
    ensures Survive(base, Exec(job, s, acts))
  {
    if acts != [] {
      var before := acts[..|acts| - 1];
      SurviveAlways(job, base, s, before, env);
      BookkeepingAlways(job, s, before, env);
      SurviveStep(job, base, Exec(job, s, before), acts[|acts| - 1]);
    }
  }

  /** A file stored when no invocation is live is never removed or changed by any later run, whatever
      fails: rollbacks only ever delete files of their own invocation. */
  lemma {:induction false} EarlierFilesSurvive(job: Job, s: State, first: seq<Action>, rest: seq<Action>, env: Env)
    requires job.Valid() && Init(s) && Legal(job, s, first, env)
    requires Exec(job, s, first).phase == Off
    requires Legal(job, Exec(job, s, first), rest, env)
    ensures SubFiles(Exec(job, s, first).files, Exec(job, Exec(job, s, first), rest).files)
  {
    BookkeepingAlways(job, s, first, env);
    SurviveAlways(job, Exec(job, s, first).files, Exec(job, s, first), rest, env);
  }

  lemma OlderStays(job: Job, s: State, a: Action)
    requires Bookkeeping(job, s) && Enabled(job, s, a) && Live(s)
    ensures Older(Apply(job, s, a)) == Older(s)
  {
    if a.DeleteOne? {
      OlderDelete(job, s, a.landed);
    } else if a.WriteFile? {
      assert Apply(job, s, a).files - Apply(job, s, a).mine == s.files - s.mine;
    } else {
      assert Apply(job, s, a).files == s.files && Apply(job, s, a).mine == s.mine;
    }
  }

  lemma OlderDelete(job: Job, s: State, landed: bool)
    requires Paths(s) && Enabled(job, s, DeleteOne(landed))
    ensures Older(Apply(job, s, DeleteOne(landed))) == Older(s)
  {
    assert s.todo[0] in ToSet(s.todo);
  }

  // ---- the stored offset is covered ----

  /** The invocation is not rolling back. */
  predicate Writing(p: Phase) { !(p.Off? || p.Rollback? || p.RollbackMirror? || p.Deleting?) }

  /** The final saves are done and files are being, or have been, deleted. */
  predicate Undoing(s: State) {
    s.phase == Deleting || (s.phase == Off && s.outcome == RolledBack)
  }

  /** What the live invocation may still rely on. */
  ghost predicate Progress(s: State) {
    && (Live(s) ==> Covered(Older(s), s.resume))
    && (Writing(s.phase) ==> Covered(s.files, s.offset))
    && ((s.phase.InBatch? || s.phase.Written?) ==> forall r :: r in s.batch ==> Holds(s.files, r))
    && (s.phase.Written? ==> s.batch == Range(s.offset, s.end))
  }

  /** No stored checkpoint runs ahead of the stored files. */
  ghost predicate Backed(job: Job, s: State) {
    && CoversCheckpoint(s.files, s.s3)
    && CoversCheckpoint(s.files, s.mirror)
    && (s.phase.RollbackMirror? || Undoing(s) ==> s.s3 == Some(Checkpoint(s.resume, [])))
    && (job.mirrored && Undoing(s) ==> s.mirror == Some(Checkpoint(s.resume, [])))
  }

  ghost predicate NoLoss(job: Job, s: State) { Progress(s) && Backed(job, s) }

  /** Once `write` has succeeded, the files of ended invocations hold the whole job. */
  ghost predicate Kept(job: Job, s: State) {
    s.wins > 0 ==> Covered(Settled(s), job.total)
  }

  /** The environment assumed: the final saves of a rollback land, everything else may fail. */
  const FINAL_SAVES := Env(false, true, false, false, false, false)

  lemma NoLossWriteFile(job: Job, s: State, p: Path, rs: set<nat>)
    requires NoLoss(job, s) && Enabled(job, s, WriteFile(p, rs))
    ensures NoLoss(job, Apply(job, s, WriteFile(p, rs)))
  {
    var t := Apply(job, s, WriteFile(p, rs));
    assert SubFiles(s.files, t.files);
    assert Older(t) == Older(s);
    if s.s3.Some? { CoveredGrows(s.files, t.files, s.s3.value.offset); }
    if s.mirror.Some? { CoveredGrows(s.files, t.files, s.mirror.value.offset); }
    CoveredGrows(s.files, t.files, s.offset);
    forall r | r in t.batch ensures Holds(t.files, r) {
      if r in rs {
        assert p in t.files && r in t.files[p];
      } else {
        assert Holds(s.files, r);
        var q :| q in s.files && r in s.files[q];
        assert q in t.files && r in t.files[q];
      }
    }
  }

  lemma NoLossDelete(job: Job, s: State, landed: bool)
    requires Bookkeeping(job, s) && NoLoss(job, s) && Enabled(job, s, DeleteOne(landed))
    ensures NoLoss(job, Apply(job, s, DeleteOne(landed)))
  {
    var t := Apply(job, s, DeleteOne(landed));
    OlderStays(job, s, DeleteOne(landed));
    assert SubFiles(Older(t), t.files);
    CoveredGrows(Older(t), t.files, t.resume);
  }

  lemma NoLossBegin(job: Job, s: State, s3Ok: bool, mirrorOk: bool)
    requires NoLoss(job, s) && s.phase == Off
    ensures NoLoss(job, BeginInvocation(job, s, s3Ok, mirrorOk))
  {
    assert Older(BeginInvocation(job, s, s3Ok, mirrorOk)) == s.files;
    assert CoversCheckpoint(s.files, Loaded(job, s, s3Ok, mirrorOk));
  }

  lemma NoLossTrack(job: Job, s: State, ps: seq<Path>)
    requires NoLoss(job, s) && Enabled(job, s, Track(ps))
    ensures NoLoss(job, Apply(job, s, Track(ps)))
  {
    var t := Apply(job, s, Track(ps));
    forall r: nat | r < t.offset ensures Holds(t.files, r) {
      assert r < s.offset || r in s.batch;
    }
  }

  /** A step that touches neither the files nor the set of files being added. */
  predicate Quiet(a: Action) { !a.WriteFile? && !a.DeleteOne? && !a.Begin? && !a.Track? }

  lemma ProgressQuiet(job: Job, s: State, a: Action)
    requires Progress(s) && Enabled(job, s, a) && Quiet(a)
    ensures Progress(Apply(job, s, a))
  {
  }

  lemma BackedQuiet(job: Job, s: State, a: Action)
    requires Bookkeeping(job, s) && NoLoss(job, s) && Enabled(job, s, a) && Obeys(s, a, FINAL_SAVES)
    requires Quiet(a)
    ensures Backed(job, Apply(job, s, a))
  {
    if a.FinalSave? || a.FinalMirror? {
      assert SubFiles(Older(s), s.files);
      CoveredGrows(Older(s), s.files, s.resume);
    }
  }

  lemma NoLossStep(job: Job, s: State, a: Action)
    requires Bookkeeping(job, s) && NoLoss(job, s) && Enabled(job, s, a) && Obeys(s, a, FINAL_SAVES)
    ensures NoLoss(job, Apply(job, s, a))
  {
    if a.WriteFile? {
      NoLossWriteFile(job, s, a.path, a.records);
    } else if a.DeleteOne? {
      NoLossDelete(job, s, a.landed);
    } else if a.Begin? {
      NoLossBegin(job, s, a.s3Ok, a.mirrorOk);
    } else if a.Track? {
      NoLossTrack(job, s, a.paths);
    } else {
      ProgressQuiet(job, s, a);
      BackedQuiet(job, s, a);
    }
  }

  lemma KeptStep(job: Job, s: State, a: Action)
    requires Bookkeeping(job, s) && NoLoss(job, s) && Kept(job, s) && Enabled(job, s, a)
    ensures Kept(job, Apply(job, s, a))
  {
    var t := Apply(job, s, a);
    if !Live(s) {
      assert Older(t) == s.files;
    } else {
      OlderStays(job, s, a);
      assert SubFiles(Older(s), t.files);
      if s.wins > 0 { CoveredGrows(Older(s), t.files, job.total); }
    }
  }

  lemma {:induction false} NoLossRun(job: Job, s: State, acts: seq<Action>)
    requires job.Valid() && Bookkeeping(job, s) && NoLoss(job, s) && Kept(job, s)
    requires Legal(job, s, acts, FINAL_SAVES)
    ensures NoLoss(job, Exec(job, s, acts)) && Kept(job, Exec(job, s, acts))
  {
    if acts != [] {
      var before := acts[..|acts| - 1];
      NoLossRun(job, s, before);
      BookkeepingAlways(job, s, before, FINAL_SAVES);
      NoLossStep(job, Exec(job, s, before), acts[|acts| - 1]);
      KeptStep(job, Exec(job, s, before), acts[|acts| - 1]);
    }
  }

  /** Main result, for one store and for two. Over any run of invocations of a fresh job, on a table that
      may hold any files, with a crash between any two steps and any load, chunk save, mirror, delete or
      clear failing: whatever offset a later invocation can load, from either store, every record below it
      is in a stored file; once `write` has reported success every record of the job stays stored; and a
      completed rollback leaves exactly the offset it resumed from. */
  lemma {:induction false} NoRecordLost(job: Job, s: State, acts: seq<Action>, s3Ok: bool, mirrorOk: bool)
    requires job.Valid() && Init(s) && Legal(job, s, acts, FINAL_SAVES)
    ensures var t := Exec(job, s, acts);
            && CoversCheckpoint(t.files, Loaded(job, t, s3Ok, mirrorOk))
            && (t.wins > 0 ==> Covered(t.files, job.total))
            && (t.phase == Off && t.outcome == RolledBack ==> Stored(job, t) == t.resume)
  {
    NoLossRun(job, s, acts);
    var t := Exec(job, s, acts);
    if Live(t) && t.wins > 0 {
      assert SubFiles(Older(t), t.files);
      CoveredGrows(Older(t), t.files, job.total);
    }
  }
}
