/** What a rollback does to the table and to the stored offset, and what happens when its final save is
    lost. */
module WriterRollback {
  import opened Wrappers
  import opened WriterModel
  import opened WriterSafety
  import opened WriterCopies

  lemma Snoc(job: Job, s: State, acts: seq<Action>, a: Action, env: Env)
    requires Legal(job, s, acts, env)
    requires Enabled(job, Exec(job, s, acts), a) && Obeys(Exec(job, s, acts), a, env)
    ensures Legal(job, s, acts + [a], env)
    ensures Exec(job, s, acts + [a]) == Apply(job, Exec(job, s, acts), a)
  {
    assert (acts + [a])[..|acts|] == acts;
  }

  lemma Snoc3(job: Job, s: State, acts: seq<Action>, a: Action, b: Action, c: Action, env: Env)
    requires Legal(job, s, acts, env)
    requires var m := Exec(job, s, acts);
             && Enabled(job, m, a) && Obeys(m, a, env)
             && Enabled(job, Apply(job, m, a), b) && Obeys(Apply(job, m, a), b, env)
             && Enabled(job, Apply(job, Apply(job, m, a), b), c)
             && Obeys(Apply(job, Apply(job, m, a), b), c, env)
    ensures Legal(job, s, acts + [a, b, c], env)
    ensures Exec(job, s, acts + [a, b, c]) == Apply(job, Apply(job, Apply(job, Exec(job, s, acts), a), b), c)
  {
    Snoc(job, s, acts, a, env);
    Snoc(job, s, acts + [a], b, env);
    Snoc(job, s, acts + [a] + [b], c, env);
    assert acts + [a] + [b] + [c] == acts + [a, b, c];
  }

  // ---- one rollback, from its first step to its last ----

  /** The steps of the invocation's own rollback and its watchdog: no crash, no new invocation. */
  ghost predicate SameInvocation(acts: seq<Action>) {
    forall a :: a in acts ==> !a.Begin? && !a.Crash?
  }

  /** s has been reached from the rollback state r by such steps; acts are the steps taken. What the
      stores hold then: */
  ghost predicate Resetting(r: State, acts: seq<Action>, s: State) {
    && (s.phase.Rollback? || s.phase.RollbackMirror? || s.phase.Deleting? || s.phase.Off?)
    && s.tracked == r.tracked && s.checkpoint == r.checkpoint && s.resume == r.resume
    && s.s3 == (if FinalSave(true) in acts then Some(Checkpoint(r.resume, [])) else r.s3)
    && s.mirror == (if FinalMirror(true) in acts then Some(Checkpoint(r.resume, [])) else r.mirror)
  }

  /** And the files, when the deletes land: */
  ghost predicate Unwinding(r: State, s: State) {
    && SubFiles(s.files, r.files)
    && SubFiles(r.files - ToSet(r.tracked), s.files)
    && (s.phase.Rollback? ==> s.files == r.files)
    && (!s.phase.Rollback? ==> ToSet(s.todo) <= ToSet(r.tracked)
                               && s.files.Keys * ToSet(r.tracked) <= ToSet(s.todo))
    && (s.phase.Off? ==> s.todo == [] && s.outcome == RolledBack)
  }

  lemma ResettingStep(job: Job, r: State, acts: seq<Action>, s: State, a: Action)
    requires Paths(r) && Resetting(r, acts, s) && Enabled(job, s, a) && !a.Begin? && !a.Crash?
    ensures Resetting(r, acts + [a], Apply(job, s, a))
  {
  }

  lemma UnwindingStep(job: Job, r: State, acts: seq<Action>, s: State, a: Action)
    requires Paths(r) && Resetting(r, acts, s) && Unwinding(r, s) && Enabled(job, s, a)
    requires a.DeleteOne? ==> a.landed
    requires !a.Begin? && !a.Crash?
    ensures Unwinding(r, Apply(job, s, a))
  {
    if a.FinalSave? {
      assert ManifestOf(s.checkpoint) + s.tracked == s.tracked;
    } else if a.DeleteOne? {
      assert s.todo[0] in ToSet(s.todo);
      assert forall q :: q in ToSet(s.todo) ==> q == s.todo[0] || q in ToSet(s.todo[1..]);
      assert ToSet(s.todo[1..]) <= ToSet(s.todo);
    }
  }

  lemma {:induction false} ResettingRun(job: Job, r: State, acts: seq<Action>, env: Env)
    requires Paths(r) && r.phase.Rollback? && Legal(job, r, acts, env) && SameInvocation(acts)
    ensures Resetting(r, acts, Exec(job, r, acts))
  {
    if acts != [] {
      var before := acts[..|acts| - 1];
      ResettingRun(job, r, before, env);
      ResettingStep(job, r, before, Exec(job, r, before), acts[|acts| - 1]);
      assert acts == before + [acts[|acts| - 1]];
    }
  }

  lemma {:induction false} UnwindingRun(job: Job, r: State, acts: seq<Action>, env: Env)
    requires Paths(r) && r.phase.Rollback? && env.deletesLand
    requires Legal(job, r, acts, env) && SameInvocation(acts)
    ensures Unwinding(r, Exec(job, r, acts))
  {
    if acts != [] {
      var before := acts[..|acts| - 1];
      UnwindingRun(job, r, before, env);
      ResettingRun(job, r, before, env);
      UnwindingStep(job, r, before, Exec(job, r, before), acts[|acts| - 1]);
    } else {
      assert SubFiles(r.files - ToSet(r.tracked), r.files);
    }
  }

  /** The only file changes a rollback makes, once its deletes have landed, is to remove the tracked
      files; each store holds the resume offset if its final save landed and its old document if not. */
  lemma {:induction false} RollbackEffect(job: Job, r: State, acts: seq<Action>, env: Env)
    requires Paths(r) && r.phase.Rollback? && env.deletesLand
    requires Legal(job, r, acts, env) && SameInvocation(acts) && Exec(job, r, acts).phase.Off?
    ensures var t := Exec(job, r, acts);
            && t.files == r.files - ToSet(r.tracked)
            && t.s3 == (if FinalSave(true) in acts then Some(Checkpoint(r.resume, [])) else r.s3)
            && t.mirror == (if FinalMirror(true) in acts then Some(Checkpoint(r.resume, [])) else r.mirror)
  {
    UnwindingRun(job, r, acts, env);
    ResettingRun(job, r, acts, env);
    var t := Exec(job, r, acts);
    var rest := r.files - ToSet(r.tracked);
    assert ToSet(t.todo) == {};
    assert forall p :: p in t.files && p in ToSet(r.tracked) ==> p in t.files.Keys * ToSet(r.tracked);
    assert forall p :: p in t.files <==> p in rest;
    assert forall p :: p in rest ==> t.files[p] == rest[p];
  }

  /** With complete tracking, a finished rollback leaves exactly the files there were when the
      invocation began: none of its progress is kept. */
  lemma {:induction false} RollbackRestoresFiles(job: Job, r: State, acts: seq<Action>, env: Env)
    requires Paths(r) && r.phase.Rollback? && env.deletesLand && r.mine <= ToSet(r.tracked)
    requires Legal(job, r, acts, env) && SameInvocation(acts) && Exec(job, r, acts).phase.Off?
    ensures Exec(job, r, acts).files == Older(r)
  {
    RollbackEffect(job, r, acts, env);
    assert ToSet(r.tracked) == r.mine;
  }

  /** Exactly when the first rollback whose final save may be lost keeps a store's offset covered: that
      save landed in the store, or the files that are not deleted cover the document it still holds. */
  lemma {:induction false} LostFinalSave(job: Job, s: State, first: seq<Action>, acts: seq<Action>, env: Env)
    requires job.Valid() && Init(s) && Legal(job, s, first, FINAL_SAVES) && env.deletesLand
    requires var r := Exec(job, s, first);
             r.phase.Rollback? && Legal(job, r, acts, env) && SameInvocation(acts) && Exec(job, r, acts).phase.Off?
    ensures var r := Exec(job, s, first);
            var t := Exec(job, r, acts);
            var kept := r.files - ToSet(r.tracked);
            && (CoversCheckpoint(t.files, t.s3)
                <==> FinalSave(true) in acts || CoversCheckpoint(kept, r.s3))
            && (CoversCheckpoint(t.files, t.mirror)
                <==> FinalMirror(true) in acts || CoversCheckpoint(kept, r.mirror))
  {
    var r := Exec(job, s, first);
    BookkeepingAlways(job, s, first, FINAL_SAVES);
    NoLossRun(job, s, first);
    RollbackEffect(job, r, acts, env);
    var kept := r.files - ToSet(r.tracked);
    assert SubFiles(Older(r), kept);
    CoveredGrows(Older(r), kept, r.resume);
  }

  /** After any crashes, losing the final save does no harm if the checkpoint it should have replaced does
      not run ahead of the offset the invocation resumed from, which a caller can check beforehand. */
  lemma {:induction false} HarmlessLoss(job: Job, s: State, first: seq<Action>, acts: seq<Action>, env: Env)
    requires job.Valid() && Init(s) && Legal(job, s, first, FINAL_SAVES)
    requires var r := Exec(job, s, first);
             r.phase.Rollback? && Legal(job, r, acts, env) && SameInvocation(acts)
    ensures var r := Exec(job, s, first);
            var t := Exec(job, r, acts);
            && (r.s3.None? || r.s3.value.offset <= r.resume ==> CoversCheckpoint(t.files, t.s3))
            && (r.mirror.None? || r.mirror.value.offset <= r.resume ==> CoversCheckpoint(t.files, t.mirror))
  {
    var r := Exec(job, s, first);
    BookkeepingAlways(job, s, first, FINAL_SAVES);
    NoLossRun(job, s, first);
    ResettingRun(job, r, acts, env);
    SurviveAlways(job, Older(r), r, acts, env);
    CoveredGrows(Older(r), Exec(job, r, acts).files, r.resume);
  }

  /** And exactly then, for each store, when loads and saves have worked and crashes have fallen only where
      the last checkpoint saved was the current offset: the files an invocation finds hold what is below
      its resume offset and nothing else. */
  lemma {:induction false} HarmfulLoss(job: Job, s: State, first: seq<Action>, acts: seq<Action>)
    requires job.Valid() && Init(s) && Foreign(s.files) && Legal(job, s, first, CALM)
    requires var r := Exec(job, s, first);
             && r.phase.Rollback? && r.wins == 0
             && Legal(job, r, acts, TRACKED) && SameInvocation(acts) && Exec(job, r, acts).phase.Off?
    ensures var r := Exec(job, s, first);
            var t := Exec(job, r, acts);
            && (FinalSave(true) !in acts ==>
                  (CoversCheckpoint(t.files, t.s3) <==> r.s3.None? || r.s3.value.offset <= r.resume))
            && (FinalMirror(true) !in acts ==>
                  (CoversCheckpoint(t.files, t.mirror) <==> r.mirror.None? || r.mirror.value.offset <= r.resume))
  {
    var r := Exec(job, s, first);
    Relax(job, s, first, TRACKED, CALM);
    InitBound(job, s);
    CopyBoundRun(job, s, first);
    BookkeepingAlways(job, s, first, CALM);
    ExactRun(job, s, first);
    RollbackEffect(job, r, acts, TRACKED);
    RollbackRestoresFiles(job, r, acts, TRACKED);
    ExactCovers(Older(r), r.resume, r.s3);
    ExactCovers(Older(r), r.resume, r.mirror);
  }

  lemma ExactCovers(files: map<Path, set<nat>>, n: nat, c: Option<Checkpoint>)
    requires ExactBelow(files, n)
    ensures CoversCheckpoint(files, c) <==> c.None? || c.value.offset <= n
  {
    forall r: nat ensures Holds(files, r) <==> r < n {
      CopiesPositive(files, r);
    }
    assert !Holds(files, n);
  }

  /** For a job no invocation of which has crashed or succeeded yet the condition is exact whatever loads
      and saves have failed: losing a store's final save loses records iff that store holds a checkpoint of
      some offset above 0. */
  lemma {:induction false} LossWithoutCrashes(job: Job, s: State, first: seq<Action>, acts: seq<Action>)
    requires job.Valid() && Init(s) && Foreign(s.files) && Legal(job, s, first, TIDY)
    requires var r := Exec(job, s, first);
             && r.phase.Rollback? && r.crashes == 0 && r.wins == 0
             && Legal(job, r, acts, TRACKED) && SameInvocation(acts) && Exec(job, r, acts).phase.Off?
    ensures var r := Exec(job, s, first);
            var t := Exec(job, r, acts);
            && (FinalSave(true) !in acts ==>
                  (CoversCheckpoint(t.files, t.s3) <==> r.s3.None? || r.s3.value.offset == 0))
            && (FinalMirror(true) !in acts ==>
                  (CoversCheckpoint(t.files, t.mirror) <==> r.mirror.None? || r.mirror.value.offset == 0))
  {
    var r := Exec(job, s, first);
    Relax(job, s, first, TRACKED, TIDY);
    InitBound(job, s);
    CopyBoundRun(job, s, first);
    BookkeepingAlways(job, s, first, TRACKED);
    RollbackEffect(job, r, acts, TRACKED);
    RollbackRestoresFiles(job, r, acts, TRACKED);
    forall k: nat ensures Copies(Older(r), k) == 0 {
      assert Holders(Older(r), k) == {};
    }
    ExactCovers(Older(r), 0, r.s3);
    ExactCovers(Older(r), 0, r.mirror);
  }

  // ---- the stored offset over time ----

  /** Loads and saves work; deletes, tracking and crashes are unrestricted. */
  const LANDED := Env(false, true, false, true, true, false)

  /** The stored offset lies between the resume offset and the current one, and never below `floor`. */
  ghost predicate AtLeast(job: Job, floor: nat, s: State) {
    && floor <= Stored(job, s)
    && (Live(s) ==> floor <= s.resume <= Stored(job, s) <= s.offset)
    && (s.phase.RollbackMirror? || Undoing(s) ==> Stored(job, s) == s.resume && s.s3.Some?)
    && (s.phase.Mirroring? ==> s.s3.Some?)
  }

  lemma AtLeastStep(job: Job, floor: nat, s: State, a: Action)
    requires job.Valid() && Offsets(job, s) && AtLeast(job, floor, s)
    requires Enabled(job, s, a) && Obeys(s, a, LANDED) && !a.ClearS3? && !a.ClearMirror?
    ensures AtLeast(job, floor, Apply(job, s, a))
  {
    if a.Begin? {
      assert Loaded(job, s, a.s3Ok, a.mirrorOk) == Loaded(job, s, true, true);
    } else if a.WatchCheck? || a.WatchRead? || a.WatchFire? {
      AtLeastSame(job, floor, s, Apply(job, s, a));
    } else if a.Save? || a.Mirror? || a.FinalSave? || a.FinalMirror? {
      AtLeastSaved(job, floor, s, a);
    } else {
      AtLeastMoved(job, floor, s, a);
    }
  }

  lemma AtLeastSame(job: Job, floor: nat, s: State, t: State)
    requires AtLeast(job, floor, s) && t.s3 == s.s3 && t.mirror == s.mirror && t.phase == s.phase
    requires t.resume == s.resume && t.offset == s.offset && t.outcome == s.outcome
    ensures AtLeast(job, floor, t)
  {
  }

  lemma AtLeastSaved(job: Job, floor: nat, s: State, a: Action)
    requires Offsets(job, s) && AtLeast(job, floor, s) && Enabled(job, s, a) && Obeys(s, a, LANDED)
    requires a.Save? || a.Mirror? || a.FinalSave? || a.FinalMirror?
    ensures AtLeast(job, floor, Apply(job, s, a))
  {
  }

  lemma AtLeastMoved(job: Job, floor: nat, s: State, a: Action)
    requires job.Valid() && Offsets(job, s) && AtLeast(job, floor, s) && Enabled(job, s, a)
    requires !a.Begin? && !a.WatchCheck? && !a.WatchRead? && !a.WatchFire?
    requires !a.Save? && !a.Mirror? && !a.FinalSave? && !a.FinalMirror? && !a.ClearS3? && !a.ClearMirror?
    ensures AtLeast(job, floor, Apply(job, s, a))
  {
    var t := Apply(job, s, a);
    assert t.s3 == s.s3 && t.mirror == s.mirror && t.resume == s.resume && t.offset >= s.offset;
    assert Stored(job, t) == Stored(job, s);
  }

  ghost predicate NoClears(acts: seq<Action>) {
    forall a :: a in acts ==> !a.ClearS3? && !a.ClearMirror?
  }

  lemma {:induction false} AtLeastRun(job: Job, floor: nat, s: State, acts: seq<Action>)
    requires job.Valid() && Bookkeeping(job, s) && AtLeast(job, floor, s)
    requires Legal(job, s, acts, LANDED) && NoClears(acts)
    ensures AtLeast(job, floor, Exec(job, s, acts))
  {
    if acts != [] {
      var before := acts[..|acts| - 1];
      AtLeastRun(job, floor, s, before);
      BookkeepingAlways(job, s, before, LANDED);
      AtLeastStep(job, floor, Exec(job, s, before), acts[|acts| - 1]);
    }
  }

  /** Once a rollback's save is done S3 holds the resume offset, for as long as no new invocation begins. */
  ghost predicate ResumeStored(s: State) {
    s.phase.RollbackMirror? || Undoing(s) ==> s.s3 == Some(Checkpoint(s.resume, []))
  }

  lemma ResumeStoredStep(job: Job, s: State, a: Action, env: Env)
    requires Paths(s) && ResumeStored(s) && Enabled(job, s, a) && Obeys(s, a, env) && env.finalSavesLand
    ensures ResumeStored(Apply(job, s, a))
  {
  }

  lemma {:induction false} ResumeStoredRun(job: Job, s: State, acts: seq<Action>, env: Env)
    requires job.Valid() && Bookkeeping(job, s) && ResumeStored(s) && Legal(job, s, acts, env) && env.finalSavesLand
    ensures ResumeStored(Exec(job, s, acts))
  {
    if acts != [] {
      var before := acts[..|acts| - 1];
      ResumeStoredRun(job, s, before, env);
      BookkeepingAlways(job, s, before, env);
      ResumeStoredStep(job, Exec(job, s, before), acts[|acts| - 1], env);
    }
  }

  lemma BetweenInvocations(job: Job, s: State, first: seq<Action>, rest: seq<Action>)
    requires job.Valid() && Init(s) && Legal(job, s, first, LANDED) && Exec(job, s, first).phase.Off?
    requires Legal(job, Exec(job, s, first), rest, LANDED) && NoClears(rest)
    ensures var m := Exec(job, s, first);
            && AtLeast(job, Stored(job, m), Exec(job, m, rest)) && Bookkeeping(job, Exec(job, m, rest))
  {
    var m := Exec(job, s, first);
    BookkeepingAlways(job, s, first, LANDED);
    ResumeStoredRun(job, s, first, LANDED);
    AtLeastRun(job, Stored(job, m), m, rest);
    BookkeepingAlways(job, m, rest, LANDED);
  }

  /** From the end of one invocation to the end of any later one the stored offset never decreases, until
      a success deletes it: crashes keep progress, rollbacks return to where they resumed. */
  lemma {:induction false} StoredOffsetMonotone(job: Job, s: State, first: seq<Action>, rest: seq<Action>)
    requires job.Valid() && Init(s) && Legal(job, s, first, LANDED) && Exec(job, s, first).phase.Off?
    requires Legal(job, Exec(job, s, first), rest, LANDED) && NoClears(rest)
    ensures Stored(job, Exec(job, Exec(job, s, first), rest)) >= Stored(job, Exec(job, s, first))
  {
    BetweenInvocations(job, s, first, rest);
  }

  /** Within one invocation it can drop, and exactly one kind of step does it: the final save of a
      rollback that follows a chunk save. */
  lemma {:induction false} StoredOffsetDrops(job: Job, s: State, first: seq<Action>, acts: seq<Action>, a: Action)
    requires job.Valid() && Init(s) && Legal(job, s, first, LANDED) && Exec(job, s, first).phase.Off?
    requires Legal(job, Exec(job, s, first), acts, LANDED) && NoClears(acts)
    requires var t := Exec(job, Exec(job, s, first), acts);
             Enabled(job, t, a) && Obeys(t, a, LANDED) && !a.ClearS3? && !a.ClearMirror?
    ensures var t := Exec(job, Exec(job, s, first), acts);
            Stored(job, Apply(job, t, a)) < Stored(job, t) <==> a.FinalSave? && t.resume < Stored(job, t)
  {
    BetweenInvocations(job, s, first, acts);
    DropStep(job, Exec(job, Exec(job, s, first), acts), a);
  }

  lemma DropStep(job: Job, t: State, a: Action)
    requires job.Valid() && Offsets(job, t) && AtLeast(job, 0, t)
    requires Enabled(job, t, a) && Obeys(t, a, LANDED) && !a.ClearS3? && !a.ClearMirror?
    ensures Stored(job, Apply(job, t, a)) < Stored(job, t) <==> a.FinalSave? && t.resume < Stored(job, t)
  {
  }

  // ---- progress ----

  predicate AtZero(c: Option<Checkpoint>) { c.Some? ==> c.value.offset == 0 }

  /** Before any crash every invocation starts at 0 and leaves 0, the first that succeeds included. */
  ghost predicate NoProgress(job: Job, s: State) {
    s.crashes == 0 ==>
      && (s.wins == 0 ==>
            && (Live(s) ==> s.resume == 0)
            && (s.phase.Off? ==> AtZero(s.s3) && AtZero(s.mirror))
            && (s.phase.RollbackMirror? || s.phase.Deleting? ==> AtZero(s.s3))
            && (s.phase.Deleting? && job.mirrored ==> AtZero(s.mirror)))
      && (JustWon(s) ==> s.resume == 0)
  }

  lemma NoProgressStep(job: Job, s: State, a: Action)
    requires Offsets(job, s) && NoProgress(job, s) && Enabled(job, s, a) && Obeys(s, a, FINAL_SAVES)
    ensures NoProgress(job, Apply(job, s, a))
  {
    if !a.Begin? {
      assert Apply(job, s, a).resume == s.resume;
    }
  }

  lemma {:induction false} NoProgressRun(job: Job, s: State, acts: seq<Action>)
    requires job.Valid() && Bookkeeping(job, s) && NoProgress(job, s) && Legal(job, s, acts, FINAL_SAVES)
    ensures NoProgress(job, Exec(job, s, acts))
  {
    if acts != [] {
      var before := acts[..|acts| - 1];
      NoProgressRun(job, s, before);
      BookkeepingAlways(job, s, before, FINAL_SAVES);
      NoProgressStep(job, Exec(job, s, before), acts[|acts| - 1]);
    }
  }

  /** Rollbacks make no progress. With landed final saves, and whatever loads, chunk saves and deletes fail:
      as long as no invocation has crashed or succeeded every invocation ends with offset 0 in both stores,
      and if none has crashed the one that succeeds has written the whole job itself. A job that does not
      fit into one invocation is therefore never finished by rollbacks alone. */
  lemma {:induction false} RollbacksMakeNoProgress(job: Job, s: State, acts: seq<Action>)
    requires job.Valid() && Init(s) && Legal(job, s, acts, FINAL_SAVES)
    ensures var t := Exec(job, s, acts);
            && (t.crashes == 0 && t.wins == 0 && t.phase.Off? ==>
                  AtZero(t.s3) && AtZero(t.mirror) && Stored(job, t) == 0)
            && (t.crashes == 0 && JustWon(t) ==> t.resume == 0)
  {
    NoProgressRun(job, s, acts);
  }
}
