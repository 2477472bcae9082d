/** Concrete runs of the writer: what the bounds and the assumptions are needed for. */
module WriterRuns {
  import opened Wrappers
  import opened WriterModel
  import opened WriterCopies
  import opened WriterRollback

  const EXAMPLE := Job(20, 10, false, 5000)

  /** A job whose first chunk is records 0 to 9. */
  predicate Plain(job: Job) { job.interval == 10 && job.total >= 10 && !job.mirrored }

  function Tally(t: State): (nat, nat) { (t.crashes, t.wins) }

  /** The points of an invocation that finds no checkpoint, stores one chunk of ten records in file p
      and is then told to roll back: about to call batch_writer, chunk written, checkpoint saved. */
  ghost predicate AtStart(t: State, files: map<Path, set<nat>>) {
    t.phase.Starting? && t.offset == 0 && t.files == files && t.mine == {} && Untouched(t)
  }

  ghost predicate AtWritten(t: State, files: map<Path, set<nat>>, p: Path) {
    t.phase.Written? && t.end == 10 && t.files == files[p := Range(0, 10)] && t.mine == {p} && Untouched(t)
  }

  ghost predicate Untouched(t: State) {
    && t.tracked == [] && t.manifest == [] && t.resume == 0 && t.s3 == None && t.mirror == None
    && !t.flag && t.watch == FRESH_WATCH
  }

  ghost predicate AtSaved(t: State) {
    && t.phase.PostCheck? && t.resume == 0 && t.s3 == Some(Checkpoint(10, [])) && t.mirror == None
    && t.files == map["a" := Range(0, 10)] && t.tracked == ["a"]
    && t.checkpoint == Some(Checkpoint(10, []))
  }

  lemma ToStart(job: Job, s: State, before: seq<Action>, env: Env) returns (acts: seq<Action>)
    requires Plain(job) && Legal(job, s, before, env)
    requires var m := Exec(job, s, before); m.phase.Off? && m.s3 == None && m.mirror == None
    ensures Legal(job, s, acts, env)
    ensures AtStart(Exec(job, s, acts), Exec(job, s, before).files)
    ensures Tally(Exec(job, s, acts)) == Tally(Exec(job, s, before))
  {
    Snoc3(job, s, before, Begin(true, true), Enter, TopCheck, env);
    acts := before + [Begin(true, true), Enter, TopCheck];
  }

  lemma WholeBatch(job: Job, m: State, files: map<Path, set<nat>>, p: Path, env: Env)
    requires Plain(job) && AtStart(m, files) && p !in files
    ensures var w := WriteFile(p, Range(0, 10));
            var m1 := Apply(job, m, StartBatch);
            var m2 := Apply(job, m1, w);
            && Enabled(job, m, StartBatch) && Enabled(job, m1, w)
            && Enabled(job, m2, BatchReturns)
            && AtWritten(Apply(job, m2, BatchReturns), files, p)
            && Tally(Apply(job, m2, BatchReturns)) == Tally(m)
  {
    var m1 := Apply(job, m, StartBatch);
    assert m1.offset == 0 && m1.end == 10 && m1.batch == {};
    assert {} + Range(0, 10) == Range(0, 10);
  }

  lemma ToWritten(job: Job, s: State, before: seq<Action>, p: Path, env: Env) returns (acts: seq<Action>)
    requires Plain(job) && Legal(job, s, before, env) && p !in Exec(job, s, before).files
    requires AtStart(Exec(job, s, before), Exec(job, s, before).files)
    ensures Legal(job, s, acts, env)
    ensures AtWritten(Exec(job, s, acts), Exec(job, s, before).files, p)
    ensures Tally(Exec(job, s, acts)) == Tally(Exec(job, s, before))
  {
    var w := WriteFile(p, Range(0, 10));
    WholeBatch(job, Exec(job, s, before), Exec(job, s, before).files, p, env);
    Snoc3(job, s, before, StartBatch, w, BatchReturns, env);
    acts := before + [StartBatch, w, BatchReturns];
  }

  lemma ToSaved(s: State, before: seq<Action>, env: Env) returns (acts: seq<Action>)
    requires Legal(EXAMPLE, s, before, env) && AtWritten(Exec(EXAMPLE, s, before), map[], "a")
    ensures Legal(EXAMPLE, s, acts, env) && AtSaved(Exec(EXAMPLE, s, acts))
    ensures Exec(EXAMPLE, s, acts).watch == FRESH_WATCH
  {
    acts := before;
    Snoc(EXAMPLE, s, acts, Track(["a"]), env); acts := acts + [Track(["a"])];
    Snoc(EXAMPLE, s, acts, Save(true), env); acts := acts + [Save(true)];
  }

  lemma ToFlag(s: State, before: seq<Action>, env: Env) returns (acts: seq<Action>)
    requires Legal(EXAMPLE, s, before, env) && AtSaved(Exec(EXAMPLE, s, before))
    requires Exec(EXAMPLE, s, before).watch == FRESH_WATCH
    ensures Legal(EXAMPLE, s, acts, env) && AtSaved(Exec(EXAMPLE, s, acts)) && Exec(EXAMPLE, s, acts).flag
  {
    Snoc3(EXAMPLE, s, before, WatchCheck, WatchRead(Some(900)), WatchFire, env);
    acts := before + [WatchCheck, WatchRead(Some(900)), WatchFire];
  }

  lemma ToRollback(s: State, env: Env) returns (acts: seq<Action>)
    requires Init(s) && s.files == map[]
    ensures Legal(EXAMPLE, s, acts, env)
    ensures var r := Exec(EXAMPLE, s, acts);
            r.phase.Rollback? && AtSaved(r.(phase := PostCheck))
  {
    acts := ToStart(EXAMPLE, s, [], env);
    acts := ToWritten(EXAMPLE, s, acts, "a", env);
    acts := ToSaved(s, acts, env);
    acts := ToFlag(s, acts, env);
    Snoc(EXAMPLE, s, acts, PostChunk, env); acts := acts + [PostChunk];
  }

  /** The stored offset of one job does fall inside an invocation, here from 10 to 0. */
  lemma {:induction false} OffsetCanDrop(s: State) returns (acts: seq<Action>)
    requires Init(s) && s.files == map[]
    ensures Legal(EXAMPLE, s, acts, CALM) && Legal(EXAMPLE, s, acts + [FinalSave(true)], CALM)
    ensures Stored(EXAMPLE, Exec(EXAMPLE, s, acts)) == 10
    ensures Stored(EXAMPLE, Exec(EXAMPLE, s, acts + [FinalSave(true)])) == 0
  {
    acts := ToRollback(s, CALM);
    Snoc(EXAMPLE, s, acts, FinalSave(true), CALM);
  }

  /** If the final save is lost the same invocation leaves a checkpoint of offset 10 and no file at all:
      the next invocation resumes at 10 and records 0 to 9 are never written. */
  lemma {:induction false} LostSaveLosesRecords(s: State) returns (acts: seq<Action>)
    requires Init(s) && s.files == map[]
    ensures Legal(EXAMPLE, s, acts, TRACKED)
    ensures var t := Exec(EXAMPLE, s, acts);
            t.phase.Off? && t.files == map[] && Stored(EXAMPLE, t) == 10
            && !CoversCheckpoint(t.files, t.s3)
  {
    acts := ToRollback(s, TRACKED);
    var r := Exec(EXAMPLE, s, acts);
    assert ManifestOf(r.checkpoint) + r.tracked == ["a"];
    assert ["a"][..0] == [];
    assert Doomed(r) == ["a"];
    Snoc(EXAMPLE, s, acts, FinalSave(false), TRACKED); acts := acts + [FinalSave(false)];
    Snoc(EXAMPLE, s, acts, DeleteOne(true), TRACKED); acts := acts + [DeleteOne(true)];
    Snoc(EXAMPLE, s, acts, RollbackEnds, TRACKED); acts := acts + [RollbackEnds];
    assert !Holds(map[], 0);
  }

  // ---- the bound on copies is reached ----

  const ONE_CHUNK := Job(10, 10, false, 5000)

  lemma OneMoreCopy(files: map<Path, set<nat>>, p: Path, records: set<nat>, r: nat)
    requires p !in files && r in records
    ensures Copies(files[p := records], r) == Copies(files, r) + 1
  {
    assert Holders(files[p := records], r) == Holders(files, r) + {p};
  }

  /** After n crashes, each between a chunk and its checkpoint. */
  ghost predicate Littered(t: State, n: nat) {
    && t.phase.Off? && Tally(t) == (n, 0) && t.s3 == None && t.mirror == None
    && Copies(t.files, 0) == n && forall p :: p in t.files ==> |p| <= n
  }

  /** A path not taken yet. */
  function Name(n: nat): (p: Path)
    ensures |p| == n + 1
  {
    seq(n + 1, _ => 'a')
  }

  /** One more invocation, as far as the end of its first batch. */
  lemma WritesAgain(s: State, before: seq<Action>, n: nat) returns (acts: seq<Action>)
    requires Legal(ONE_CHUNK, s, before, TIDY) && Littered(Exec(ONE_CHUNK, s, before), n)
    ensures Legal(ONE_CHUNK, s, acts, TIDY)
    ensures var t := Exec(ONE_CHUNK, s, acts);
            && AtWritten(t, Exec(ONE_CHUNK, s, before).files, Name(n)) && Tally(t) == (n, 0)
            && Copies(t.files, 0) == n + 1 && forall p :: p in t.files ==> |p| <= n + 1
  {
    var files := Exec(ONE_CHUNK, s, before).files;
    acts := ToStart(ONE_CHUNK, s, before, TIDY);
    acts := ToWritten(ONE_CHUNK, s, acts, Name(n), TIDY);
    OneMoreCopy(files, Name(n), Range(0, 10), 0);
  }

  lemma FreshIsLittered(s: State)
    requires Init(s) && s.files == map[]
    ensures Legal(ONE_CHUNK, s, [], TIDY) && Littered(Exec(ONE_CHUNK, s, []), 0)
  {
    assert Holders(s.files, 0) == {};
  }

  lemma CrashLitters(t: State, files: map<Path, set<nat>>, n: nat)
    requires AtWritten(t, files, Name(n)) && Tally(t) == (n, 0)
    requires Copies(t.files, 0) == n + 1 && forall p :: p in t.files ==> |p| <= n + 1
    ensures Enabled(ONE_CHUNK, t, Crash) && Littered(Apply(ONE_CHUNK, t, Crash), n + 1)
  {
    assert Apply(ONE_CHUNK, t, Crash).files == t.files;
  }

  lemma CrashOnce(s: State, before: seq<Action>, n: nat) returns (acts: seq<Action>)
    requires Legal(ONE_CHUNK, s, before, TIDY) && Littered(Exec(ONE_CHUNK, s, before), n)
    ensures Legal(ONE_CHUNK, s, acts, TIDY) && Littered(Exec(ONE_CHUNK, s, acts), n + 1)
  {
    var written := WritesAgain(s, before, n);
    CrashLitters(Exec(ONE_CHUNK, s, written), Exec(ONE_CHUNK, s, before).files, n);
    Snoc(ONE_CHUNK, s, written, Crash, TIDY);
    acts := written + [Crash];
  }

  lemma {:induction false} CrashesAgain(s: State, n: nat) returns (acts: seq<Action>)
    requires Init(s) && s.files == map[]
    ensures Legal(ONE_CHUNK, s, acts, TIDY) && Littered(Exec(ONE_CHUNK, s, acts), n)
  {
    if n == 0 {
      FreshIsLittered(s);
      return [];
    }
    acts := CrashesAgain(s, n - 1);
    acts := CrashOnce(s, acts, n - 1);
  }

  lemma Wins(s: State, before: seq<Action>, files: map<Path, set<nat>>, p: Path) returns (acts: seq<Action>)
    requires Legal(ONE_CHUNK, s, before, TIDY) && AtWritten(Exec(ONE_CHUNK, s, before), files, p)
    requires Exec(ONE_CHUNK, s, before).wins == 0
    ensures Legal(ONE_CHUNK, s, acts, TIDY) && JustWon(Exec(ONE_CHUNK, s, acts))
    ensures Exec(ONE_CHUNK, s, acts).files == Exec(ONE_CHUNK, s, before).files
    ensures Exec(ONE_CHUNK, s, acts).crashes == Exec(ONE_CHUNK, s, before).crashes
  {
    assert ToSet([p]) == {p};
    Snoc3(ONE_CHUNK, s, before, Track([p]), Save(true), PostChunk, TIDY);
    acts := before + [Track([p]), Save(true), PostChunk];
    Snoc(ONE_CHUNK, s, acts, TopCheck, TIDY);
    acts := acts + [TopCheck];
    Snoc(ONE_CHUNK, s, acts, ClearS3(true), TIDY);
    acts := acts + [ClearS3(true)];
  }

  /** For every n a job can crash n times, each time between a chunk and its checkpoint, then succeed, and
      record 0 is stored n + 1 times. */
  lemma {:induction false} CrashDuplicates(s: State, n: nat) returns (acts: seq<Action>)
    requires Init(s) && s.files == map[]
    ensures Legal(ONE_CHUNK, s, acts, TIDY)
    ensures var t := Exec(ONE_CHUNK, s, acts);
            JustWon(t) && t.crashes == n && Copies(t.files, 0) == 1 + t.crashes
  {
    acts := CrashesAgain(s, n);
    var files := Exec(ONE_CHUNK, s, acts).files;
    acts := WritesAgain(s, acts, n);
    acts := Wins(s, acts, files, Name(n));
  }
}
