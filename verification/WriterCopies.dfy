/** How often a record is stored: bounds on duplication, and exactly when a failed final save loses
    records. */
module WriterCopies {
  import opened Wrappers
  import opened WriterModel
  import opened WriterSafety

  /** Path tracking is complete and deletes land; loads and saves may still fail. */
  const TRACKED := Env(true, false, true, false, false, false)

  /** As TRACKED, and the final saves of a rollback land too. */
  const TIDY := Env(true, true, true, false, false, false)

  /** Every load, save and delete works, and crashes fall only where the last checkpoint saved is
      the current offset. */
  const CALM := Env(true, true, true, true, true, true)

  // ---- environments ----

  ghost predicate Weaker(weak: Env, strong: Env) {
    && (weak.tracksAll ==> strong.tracksAll)
    && (weak.finalSavesLand ==> strong.finalSavesLand)
    && (weak.deletesLand ==> strong.deletesLand)
    && (weak.loadsLand ==> strong.loadsLand)
    && (weak.savesLand ==> strong.savesLand)
    && (weak.politeCrashes ==> strong.politeCrashes)
  }

  /** A run a demanding environment allows is allowed by a laxer one. */
  lemma {:induction false} Relax(job: Job, s: State, acts: seq<Action>, weak: Env, strong: Env)
    requires Weaker(weak, strong) && Legal(job, s, acts, strong)
    ensures Legal(job, s, acts, weak)
  {
    if acts != [] {
      Relax(job, s, acts[..|acts| - 1], weak, strong);
    }
  }

  // ---- counting ----

  function Holders(files: map<Path, set<nat>>, r: nat): set<Path> {
    set p | p in files && r in files[p]
  }

  lemma AtMostOne<T>(s: set<T>)
    requires forall x, y :: x in s && y in s ==> x == y
    ensures |s| <= 1
  {
    if s != {} {
      var x :| x in s;
      assert s == {x};
    }
  }

  /** The files of the live invocation hold disjoint sets of records. */
  ghost predicate MineDisjoint(s: State) {
    forall p, q :: p in s.mine && q in s.mine && p in s.files && q in s.files && p != q
                   ==> s.files[p] !! s.files[q]
  }

  ghost predicate InMine(s: State, r: nat) {
    exists p :: p in s.mine && p in s.files && r in s.files[p]
  }

  /** A record's copies are the older ones and at most one by the live invocation. */
  lemma CopiesSplit(s: State, r: nat)
    requires MineDisjoint(s)
    ensures Copies(s.files, r) == Copies(Older(s), r) + if InMine(s, r) then 1 else 0
  {
    assert Holders(s.files, r) == Holders(Older(s), r) + MineHolders(s, r);
    assert Holders(Older(s), r) !! MineHolders(s, r);
    OneOfMine(s, r);
  }

  function MineHolders(s: State, r: nat): set<Path> { set p | p in s.mine && p in s.files && r in s.files[p] }

  lemma OneOfMine(s: State, r: nat)
    requires MineDisjoint(s)
    ensures |MineHolders(s, r)| == if InMine(s, r) then 1 else 0
  {
    var held := MineHolders(s, r);
    AtMostOne(held);
    if InMine(s, r) {
      var p :| p in s.mine && p in s.files && r in s.files[p];
      assert p in held;
    } else {
      assert held == {};
    }
  }

  // ---- what the live invocation has added ----

  ghost predicate MineShape(s: State) {
    && MineDisjoint(s)
    && (forall p :: p in s.mine && p in s.files ==> s.files[p] <= Range(s.resume, s.offset) + s.batch)
    && s.batch <= Range(s.offset, s.end)
    && (!(s.phase.InBatch? || s.phase.Written?) ==> s.batch == {} && s.mine <= ToSet(s.tracked))
    && ((s.phase.RollbackMirror? || s.phase.Deleting?) ==> s.mine * s.files.Keys <= ToSet(s.todo))
  }

  ghost predicate ExactBelow(files: map<Path, set<nat>>, n: nat) {
    forall r: nat :: Copies(files, r) == if r < n then 1 else 0
  }

  ghost predicate AtMost(files: map<Path, set<nat>>, k: nat) {
    forall r: nat :: Copies(files, r) <= k
  }

  predicate JustWon(s: State) { s.wins == 1 && s.phase == Off && s.outcome == Succeeded }

  /** Copies never outnumber crashed invocations, apart from the live or first successful one. */
  ghost predicate CopyBound(job: Job, s: State) {
    && (Live(s) ==> MineShape(s))
    && (s.wins == 0 ==> AtMost(Settled(s), s.crashes))
    && (JustWon(s) ==> AtMost(s.files, 1 + s.crashes))
    && (s.wins == 0 && s.crashes == 0 ==> Foreign(Settled(s)))
  }

  lemma MineShapeWriteFile(job: Job, s: State, p: Path, rs: set<nat>)
    requires s.resume <= s.offset && Enabled(job, s, WriteFile(p, rs)) && MineShape(s)
    ensures MineShape(Apply(job, s, WriteFile(p, rs)))
  {
    var t := Apply(job, s, WriteFile(p, rs));
    assert Range(s.offset, s.end) !! Range(s.resume, s.offset);
    forall q | q in s.mine && q in s.files
      ensures t.files[q] !! rs && t.files[q] <= Range(t.resume, t.offset) + t.batch
    {
      assert t.files[q] == s.files[q];
    }
  }

  lemma MineShapeTrack(job: Job, s: State, ps: seq<Path>)
    requires s.resume <= s.offset <= s.end && Enabled(job, s, Track(ps)) && MineShape(s)
    requires s.mine <= ToSet(s.tracked + ps)
    ensures MineShape(Apply(job, s, Track(ps)))
  {
    assert Range(s.resume, s.offset) + Range(s.offset, s.end) == Range(s.resume, s.end);
  }

  lemma MineShapeDelete(job: Job, s: State)
    requires Enabled(job, s, DeleteOne(true)) && MineShape(s)
    ensures MineShape(Apply(job, s, DeleteOne(true)))
  {
    assert forall q :: q in ToSet(s.todo) ==> q == s.todo[0] || q in ToSet(s.todo[1..]);
  }

  lemma MineShapeQuiet(job: Job, s: State, a: Action)
    requires Enabled(job, s, a) && Quiet(a) && Live(s) && MineShape(s)
    requires ToSet(Doomed(s)) == ToSet(s.tracked) && Live(Apply(job, s, a))
    ensures MineShape(Apply(job, s, a))
  {
    if a.WatchCheck? || a.WatchRead? || a.WatchFire? {
      MineShapeSame(s, Apply(job, s, a));
    } else if a.FinalSave? || a.FinalMirror? {
      MineShapeFinal(job, s, a);
    } else {
      MineShapeOwn(job, s, a);
    }
  }

  lemma MineShapeFinal(job: Job, s: State, a: Action)
    requires Enabled(job, s, a) && (a.FinalSave? || a.FinalMirror?) && MineShape(s)
    requires ToSet(Doomed(s)) == ToSet(s.tracked)
    ensures MineShape(Apply(job, s, a))
  {
  }

  lemma MineShapeSame(s: State, t: State)
    requires MineShape(s) && t.files == s.files && t.mine == s.mine && t.batch == s.batch && t.phase == s.phase
    requires t.resume == s.resume && t.offset == s.offset && t.end == s.end
    requires t.tracked == s.tracked && t.todo == s.todo
    ensures MineShape(t)
  {
  }

  lemma MineShapeOwn(job: Job, s: State, a: Action)
    requires Enabled(job, s, a) && Quiet(a) && Live(s) && MineShape(s)
    requires !a.WatchCheck? && !a.WatchRead? && !a.WatchFire? && !a.FinalSave? && !a.FinalMirror?
    requires Live(Apply(job, s, a))
    ensures MineShape(Apply(job, s, a))
  {
  }

  lemma MineShapeStep(job: Job, s: State, a: Action)
    requires Bookkeeping(job, s) && Enabled(job, s, a) && Obeys(s, a, TRACKED)
    requires Live(s) && MineShape(s) && Live(Apply(job, s, a))
    ensures MineShape(Apply(job, s, a))
  {
    if a.WriteFile? {
      MineShapeWriteFile(job, s, a.path, a.records);
    } else if a.Track? {
      MineShapeTrack(job, s, a.paths);
    } else if a.DeleteOne? {
      MineShapeDelete(job, s);
    } else {
      DoomedIsMine(s);
      MineShapeQuiet(job, s, a);
    }
  }

  lemma NoneLeft(s: State)
    requires MineShape(s) && s.phase == Deleting && s.todo == []
    ensures Older(s) == s.files
  {
    assert forall p :: p in s.files && p in s.mine ==> p in s.mine * s.files.Keys;
  }

  lemma CopyBoundEnd(job: Job, s: State, a: Action)
    requires CopyBound(job, s) && Live(s) && Enabled(job, s, a) && !Live(Apply(job, s, a))
    ensures CopyBound(job, Apply(job, s, a))
  {
    if a.RollbackEnds? {
      NoneLeft(s);
    } else {
      var t := Apply(job, s, a);
      assert t.files == s.files;
      forall r: nat ensures Copies(t.files, r) <= Copies(Older(s), r) + 1 {
        CopiesSplit(s, r);
      }
    }
  }

  lemma CopyBoundStep(job: Job, s: State, a: Action)
    requires job.Valid() && Bookkeeping(job, s) && CopyBound(job, s)
    requires Enabled(job, s, a) && Obeys(s, a, TRACKED)
    ensures CopyBound(job, Apply(job, s, a))
  {
    if !Live(s) {
      assert Older(Apply(job, s, a)) == s.files;
    } else if !Live(Apply(job, s, a)) {
      CopyBoundEnd(job, s, a);
    } else {
      OlderStays(job, s, a);
      MineShapeStep(job, s, a);
    }
  }

  lemma {:induction false} CopyBoundRun(job: Job, s: State, acts: seq<Action>)
    requires job.Valid() && Bookkeeping(job, s) && CopyBound(job, s) && Legal(job, s, acts, TRACKED)
    ensures CopyBound(job, Exec(job, s, acts))
  {
    if acts != [] {
      var before := acts[..|acts| - 1];
      CopyBoundRun(job, s, before);
      BookkeepingAlways(job, s, before, TRACKED);
      CopyBoundStep(job, Exec(job, s, before), acts[|acts| - 1]);
    }
  }

  lemma CopiesPositive(files: map<Path, set<nat>>, r: nat)
    ensures Copies(files, r) >= 1 <==> Holds(files, r)
  {
    if Holds(files, r) {
      var p :| p in files && r in files[p];
      assert p in Holders(files, r);
    } else {
      assert Holders(files, r) == {};
    }
  }

  lemma InitBound(job: Job, s: State)
    requires Init(s) && Foreign(s.files)
    ensures Bookkeeping(job, s) && CopyBound(job, s) && ExactBelow(s.files, 0)
  {
    forall r: nat ensures Copies(s.files, r) == 0 {
      assert Holders(s.files, r) == {};
    }
  }

  /** Completion with bounded duplication, on a table that held no record of the job: when `write` first
      reports success, every record of the job is stored at least once and at most once more than there
      were crashed invocations. */
  lemma {:induction false} CompleteAndBounded(job: Job, s: State, acts: seq<Action>, r: nat)
    requires job.Valid() && Init(s) && Foreign(s.files) && Legal(job, s, acts, TIDY)
    requires JustWon(Exec(job, s, acts)) && r < job.total
    ensures 1 <= Copies(Exec(job, s, acts).files, r) <= 1 + Exec(job, s, acts).crashes
  {
    InitBound(job, s);
    Relax(job, s, acts, TRACKED, TIDY);
    CopyBoundRun(job, s, acts);
    Relax(job, s, acts, FINAL_SAVES, TIDY);
    NoLossRun(job, s, acts);
    CopiesPositive(Exec(job, s, acts).files, r);
  }

  // ---- exactly once ----

  /** What an invocation has stored so far: all of [resume, offset) and the current batch. */
  ghost predicate MineFull(s: State) {
    forall r: nat :: r in Range(s.resume, s.offset) || r in s.batch ==> InMine(s, r)
  }

  /** The last checkpoint saved is the current offset, in both stores. */
  predicate AtRest(p: Phase) {
    p.Entered? || p.Top? || p.Starting? || p.InBatch? || p.Written? || p.PostCheck? || p.Rollback?
  }

  /** The files: once below the resume offset, and all that the live invocation should have added. */
  ghost predicate ExactFiles(s: State) {
    && (Live(s) ==> ExactBelow(Older(s), s.resume))
    && (Writing(s.phase) || s.phase.Rollback? ==> MineFull(s))
    && (s.phase.Written? ==> s.batch == Range(s.offset, s.end))
  }

  /** The stores: what a later invocation would resume from. */
  ghost predicate ExactStores(job: Job, s: State) {
    && (s.phase.Off? ==> ExactBelow(s.files, Stored(job, s)))
    && (AtRest(s.phase) ==> Stored(job, s) == s.offset)
    && (s.phase.Mirroring? ==> s.s3.Some? && s.s3.value.offset == s.offset)
    && (s.phase.RollbackMirror? || s.phase.Deleting? ==> s.s3 == Some(Checkpoint(s.resume, [])))
  }

  /** While the job has not yet succeeded, the stores agree with each other and with the files. */
  ghost predicate Exact(job: Job, s: State) {
    && (JustWon(s) ==> ExactBelow(s.files, job.total))
    && (s.wins == 0 ==> ExactFiles(s) && ExactStores(job, s))
  }

  lemma ExactWriteFile(job: Job, s: State, p: Path, rs: set<nat>)
    requires ExactFiles(s) && Enabled(job, s, WriteFile(p, rs))
    ensures ExactFiles(Apply(job, s, WriteFile(p, rs)))
  {
    var t := Apply(job, s, WriteFile(p, rs));
    assert Older(t) == Older(s);
    forall r: nat | r in Range(t.resume, t.offset) || r in t.batch ensures InMine(t, r) {
      if r in rs {
        assert p in t.mine && p in t.files && r in t.files[p];
      } else {
        assert InMine(s, r);
        var q :| q in s.mine && q in s.files && r in s.files[q];
        assert q in t.mine && q in t.files && r in t.files[q];
      }
    }
  }

  lemma ExactAtOffset(s: State)
    requires MineShape(s) && MineFull(s) && s.batch == {} && ExactBelow(Older(s), s.resume)
    requires s.resume <= s.offset
    ensures ExactBelow(s.files, s.offset)
  {
    forall r: nat ensures Copies(s.files, r) == if r < s.offset then 1 else 0 {
      CopiesSplit(s, r);
      if InMine(s, r) {
        assert r in Range(s.resume, s.offset);
      }
    }
  }

  /** Steps other than a file write or delete keep what the invocation has stored. */
  lemma MineFullStays(s: State, t: State)
    requires MineFull(s) && t.files == s.files && t.mine == s.mine
    requires forall r: nat :: r in Range(t.resume, t.offset) || r in t.batch
                              ==> r in Range(s.resume, s.offset) || r in s.batch
    ensures MineFull(t)
  {
    forall r: nat | r in Range(t.resume, t.offset) || r in t.batch ensures InMine(t, r) {
      assert InMine(s, r);
      var p :| p in s.mine && p in s.files && r in s.files[p];
      assert p in t.mine && p in t.files && r in t.files[p];
    }
  }

  lemma ExactEnd(job: Job, s: State, a: Action)
    requires job.Valid() && Bookkeeping(job, s) && CopyBound(job, s) && Exact(job, s)
    requires Enabled(job, s, a) && Obeys(s, a, CALM) && Live(s) && !Live(Apply(job, s, a))
    ensures Exact(job, Apply(job, s, a))
  {
    if a.RollbackEnds? {
      NoneLeft(s);
    } else if s.wins == 0 {
      ExactAtOffset(s);
    }
  }

  lemma ExactStoresStep(job: Job, s: State, a: Action)
    requires Bookkeeping(job, s) && ExactStores(job, s) && ExactFiles(s)
    requires Enabled(job, s, a) && Obeys(s, a, CALM) && Live(Apply(job, s, a))
    ensures ExactStores(job, Apply(job, s, a))
  {
    if a.Begin? {
      assert Loaded(job, s, a.s3Ok, a.mirrorOk) == Loaded(job, s, true, true);
    } else {
      ExactStoresWithin(job, s, a);
    }
  }

  lemma ExactStoresWithin(job: Job, s: State, a: Action)
    requires Bookkeeping(job, s) && ExactStores(job, s)
    requires Enabled(job, s, a) && Obeys(s, a, CALM) && Live(Apply(job, s, a)) && !a.Begin?
    ensures ExactStores(job, Apply(job, s, a))
  {
  }

  lemma ExactFilesStep(job: Job, s: State, a: Action)
    requires Bookkeeping(job, s) && ExactStores(job, s) && ExactFiles(s) && s.wins == 0
    requires Enabled(job, s, a) && Obeys(s, a, CALM) && Live(s) && Live(Apply(job, s, a))
    ensures ExactFiles(Apply(job, s, a))
  {
    OlderStays(job, s, a);
    if a.WriteFile? {
      ExactWriteFile(job, s, a.path, a.records);
    } else if !a.DeleteOne? {
      ExactFilesQuiet(job, s, a);
    }
  }

  lemma ExactFilesQuiet(job: Job, s: State, a: Action)
    requires Offsets(job, s) && ExactFiles(s) && Enabled(job, s, a) && !a.WriteFile? && !a.DeleteOne? && !a.Begin?
    requires Live(s) && Live(Apply(job, s, a)) && Older(Apply(job, s, a)) == Older(s)
    ensures ExactFiles(Apply(job, s, a))
  {
    var t := Apply(job, s, a);
    assert t.files == s.files && t.mine == s.mine && t.resume == s.resume;
    if Writing(t.phase) || t.phase.Rollback? {
      assert Writing(s.phase) || s.phase.Rollback?;
      MineFullStays(s, t);
    }
  }

  lemma ExactStep(job: Job, s: State, a: Action)
    requires job.Valid() && Bookkeeping(job, s) && CopyBound(job, s) && Exact(job, s)
    requires Enabled(job, s, a) && Obeys(s, a, CALM)
    ensures Exact(job, Apply(job, s, a))
  {
    if s.wins == 0 {
      if !Live(Apply(job, s, a)) {
        ExactEnd(job, s, a);
      } else {
        ExactStoresStep(job, s, a);
        if a.Begin? {
          assert Older(Apply(job, s, a)) == s.files;
        } else {
          ExactFilesStep(job, s, a);
        }
      }
    }
  }

  lemma {:induction false} ExactRun(job: Job, s: State, acts: seq<Action>)
    requires job.Valid() && Bookkeeping(job, s) && CopyBound(job, s) && Exact(job, s)
    requires Legal(job, s, acts, CALM)
    ensures Exact(job, Exec(job, s, acts))
  {
    if acts != [] {
      var before := acts[..|acts| - 1];
      ExactRun(job, s, before);
      BookkeepingAlways(job, s, before, CALM);
      Relax(job, s, before, TRACKED, CALM);
      CopyBoundRun(job, s, before);
      ExactStep(job, Exec(job, s, before), acts[|acts| - 1]);
    }
  }

  /** Exactly once: in a calm environment, when `write` first reports success every record of the job is
      stored exactly once and no other record is stored. */
  lemma {:induction false} ExactlyOnce(job: Job, s: State, acts: seq<Action>, r: nat)
    requires job.Valid() && Init(s) && Foreign(s.files) && Legal(job, s, acts, CALM) && JustWon(Exec(job, s, acts))
    ensures Copies(Exec(job, s, acts).files, r) == if r < job.total then 1 else 0
  {
    InitBound(job, s);
    ExactRun(job, s, acts);
  }
}
