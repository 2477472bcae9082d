/** The checkpointed writer as a step system.

    One job (one stable idempotency key) is run by a sequence of invocations. What survives an
    invocation is on disk: the table's files, the S3 checkpoint and its durable mirror. Everything else
    belongs to the live process and is lost when it dies. Every call that leaves the process is its own
    step, so a crash may fall between any two of them. */
module WriterModel {
  import opened Wrappers

  type Path = string

  datatype Checkpoint = Checkpoint(offset: nat, manifest: seq<Path>)

  /** What is fixed for the job. `mirrored` says that a durable bridge is in use. */
  datatype Job = Job(total: nat, interval: nat, mirrored: bool, threshold: int)
  {
    predicate Valid() { interval > 0 }
  }

  /** Where the writing thread stands. */
  datatype Phase =
    | Off             // no live invocation
    | Entered         // checkpoint loaded, watchdog started, flag not yet looked at
    | Top             // head of the chunk loop
    | Starting        // flag seen clear, batch_writer about to be called
    | InBatch         // batch_writer running
    | Written         // batch_writer returned, paths not yet tracked
    | Saving          // chunk checkpoint about to be put to S3
    | Mirroring       // chunk checkpoint about to be mirrored
    | PostCheck       // about to look at the flag after the chunk
    | Rollback        // final checkpoint about to be put to S3
    | RollbackMirror  // final checkpoint about to be mirrored
    | Deleting        // tracked files being deleted
    | Clearing        // S3 checkpoint about to be deleted
    | ClearingMirror  // durable checkpoint about to be cleared

  datatype Outcome = Pending | Succeeded | RolledBack | Crashed

  datatype WatchPc = Polling | Reading | Firing(reading: int) | Ended

  datatype Watch = Watch(armed: bool, done: bool, pc: WatchPc)

  datatype State = State(
    // on disk
    files: map<Path, set<nat>>,
    s3: Option<Checkpoint>,
    mirror: Option<Checkpoint>,
    // the writing thread
    phase: Phase,
    resume: nat,
    offset: nat,
    end: nat,
    batch: set<nat>,
    checkpoint: Option<Checkpoint>,
    manifest: seq<Path>,
    tracked: seq<Path>,
    todo: seq<Path>,
    // the watchdog thread and the flag it sets
    flag: bool,
    watch: Watch,
    // history
    mine: set<Path>,
    outcome: Outcome,
    crashes: nat,
    wins: nat,
    late: nat,
    fired: nat,
    low: Option<int>)

  /** One step. A `landed` of false is a call that failed and was logged only. */
  datatype Action =
    | Begin(s3Ok: bool, mirrorOk: bool)
    | Enter
    | TopCheck
    | StartBatch
    | WriteFile(path: Path, records: set<nat>)
    | BatchReturns
    | Track(paths: seq<Path>)
    | Save(landed: bool)
    | Mirror(landed: bool)
    | PostChunk
    | FinalSave(landed: bool)
    | FinalMirror(landed: bool)
    | DeleteOne(landed: bool)
    | RollbackEnds
    | ClearS3(landed: bool)
    | ClearMirror(landed: bool)
    | Crash
    | WatchCheck
    | WatchRead(remaining: Option<int>)
    | WatchFire

  /** Failures an environment rules out. */
  datatype Env = Env(
    tracksAll: bool,
    finalSavesLand: bool,
    deletesLand: bool,
    loadsLand: bool,
    savesLand: bool,
    politeCrashes: bool)

  const ANY_ENV := Env(false, false, false, false, false, false)

  function Min(a: nat, b: nat): nat { if a < b then a else b }

  /** The record ids lo, lo + 1, ..., hi - 1. */
  function Range(lo: nat, hi: nat): (r: set<nat>)
    ensures forall k: nat :: k in r <==> lo <= k < hi
  {
    if lo >= hi then {} else Range(lo, hi - 1) + {hi - 1}
  }

  function ToSet(paths: seq<Path>): set<Path> { set p | p in paths }

  /** Order-preserving removal of duplicates, as `list(dict.fromkeys(paths))` does it. */
  function Dedup(paths: seq<Path>): (r: seq<Path>)
    ensures ToSet(r) == ToSet(paths)
  {
    if paths == [] then []
    else
      var last := paths[|paths| - 1];
      var init := Dedup(paths[..|paths| - 1]);
      assert ToSet(paths) == ToSet(paths[..|paths| - 1]) + {last} by {
        assert paths == paths[..|paths| - 1] + [last];
      }
      assert last in ToSet(init) <==> last in init;
      if last in init then init else assert ToSet(init + [last]) == ToSet(init) + {last}; init + [last]
  }

  /** r[j] is where a new path turns up in the list: at its first place, after all of r[..j] and no more. */
  ghost predicate InPlace(paths: seq<Path>, r: seq<Path>, j: nat)
    requires j < |r|
  {
    exists k :: 0 <= k < |paths| && paths[k] == r[j] && r[j] !in paths[..k] && ToSet(paths[..k]) == ToSet(r[..j])
  }

  /** Every path once, in the order of the first places. */
  lemma {:induction false} DedupOrder(paths: seq<Path>)
    ensures ToSet(Dedup(paths)) == ToSet(paths)
    ensures forall j :: 0 <= j < |Dedup(paths)| ==> InPlace(paths, Dedup(paths), j)
  {
    if paths != [] {
      var n := |paths| - 1;
      var front, init, r := paths[..n], Dedup(paths[..n]), Dedup(paths);
      DedupOrder(front);
      forall j | 0 <= j < |r| ensures InPlace(paths, r, j) {
        if j < |init| {
          assert InPlace(front, init, j);
          var k :| 0 <= k < n && front[k] == init[j] && init[j] !in front[..k]
                   && ToSet(front[..k]) == ToSet(init[..j]);
          assert front[..k] == paths[..k] && init[..j] == r[..j] && paths[k] == r[j];
        } else {
          assert r[..j] == init && paths[n] == r[j] && r[j] !in ToSet(front);
        }
      }
    }
  }

  function ManifestOf(c: Option<Checkpoint>): seq<Path> {
    if c.Some? then c.value.manifest else []
  }

  /** What entering the context loads: S3 first, the durable checkpoint when S3 gives nothing. */
  function Loaded(job: Job, s: State, s3Ok: bool, mirrorOk: bool): Option<Checkpoint> {
    if s3Ok && s.s3.Some? then s.s3
    else if job.mirrored && mirrorOk then s.mirror
    else None
  }

  /** The offset a fault-free load resumes from. */
  function Stored(job: Job, s: State): nat {
    var c := Loaded(job, s, true, true);
    if c.Some? then c.value.offset else 0
  }

  const FRESH_WATCH := Watch(true, false, Polling)

  /** A fresh job on a table that may already hold any files. */
  predicate Init(s: State) {
    && s.s3 == None && s.mirror == None
    && s.phase == Off && s.outcome == Pending
    && s.crashes == 0 && s.wins == 0 && s.late == 0 && s.fired == 0 && s.low == None
    && s.resume == 0 && s.offset == 0 && s.end == 0 && s.checkpoint == None && s.manifest == []
    && s.tracked == [] && s.todo == [] && s.mine == {} && s.batch == {}
    && !s.flag && s.watch == FRESH_WATCH
  }

  /** Files with no record of this job. Record ids are the job's own, so whatever else a file holds does
      not show here. */
  predicate Foreign(files: map<Path, set<nat>>) {
    forall p :: p in files ==> files[p] == {}
  }

  predicate Live(s: State) { s.phase != Off }

  ghost predicate Enabled(job: Job, s: State, a: Action) {
    match a
    case Begin(_, _) => s.phase == Off
    case Enter => s.phase == Entered
    case TopCheck => s.phase == Top
    case StartBatch => s.phase == Starting
    case WriteFile(p, rs) =>
      s.phase == InBatch && p !in s.files && rs <= Range(s.offset, s.end) && rs !! s.batch
    case BatchReturns => s.phase == InBatch && s.batch == Range(s.offset, s.end)
    // track_paths names files this invocation added
    case Track(ps) => s.phase == Written && ToSet(ps) <= s.mine
    case Save(_) => s.phase == Saving
    case Mirror(_) => s.phase == Mirroring
    case PostChunk => s.phase == PostCheck
    case FinalSave(_) => s.phase == Rollback
    case FinalMirror(_) => s.phase == RollbackMirror
    case DeleteOne(_) => s.phase == Deleting && s.todo != []
    case RollbackEnds => s.phase == Deleting && s.todo == []
    case ClearS3(_) => s.phase == Clearing
    case ClearMirror(_) => s.phase == ClearingMirror
    case Crash => Live(s)
    case WatchCheck => Live(s) && s.watch.pc == Polling
    case WatchRead(_) => Live(s) && s.watch.pc == Reading
    case WatchFire => Live(s) && s.watch.pc.Firing?
  }

  /** Does the environment allow this step? */
  ghost predicate Obeys(s: State, a: Action, env: Env) {
    && (env.tracksAll && a.Track? ==> s.mine <= ToSet(s.tracked + a.paths))
    && (env.finalSavesLand && (a.FinalSave? || a.FinalMirror?) ==> a.landed)
    && (env.deletesLand && a.DeleteOne? ==> a.landed)
    && (env.loadsLand && a.Begin? ==> a.s3Ok && a.mirrorOk)
    && (env.savesLand && (a.Save? || a.Mirror?) ==> a.landed)
    && (env.politeCrashes && a.Crash? ==>
         s.phase.Entered? || s.phase.Top? || s.phase.Starting? || s.phase.PostCheck? || s.phase.Rollback?)
  }

  function BeginInvocation(job: Job, s: State, s3Ok: bool, mirrorOk: bool): State {
    var c := Loaded(job, s, s3Ok, mirrorOk);
    var k := if c.Some? then c.value.offset else 0;
    s.(phase := Entered, resume := k, offset := k, end := k, batch := {}, checkpoint := c,
       manifest := ManifestOf(c), tracked := [], todo := [], flag := false, watch := FRESH_WATCH,
       mine := {}, outcome := Pending, late := 0, fired := 0, low := None)
  }

  /** The list `_handle_rollback` hands to the adapter. */
  function Doomed(s: State): seq<Path> {
    Dedup(ManifestOf(s.checkpoint) + s.tracked)
  }

  function Succeed(s: State): State {
    s.(phase := Off, outcome := Succeeded, wins := s.wins + 1)
  }

  function Apply(job: Job, s: State, a: Action): State {
    match a
    case Begin(s3Ok, mirrorOk) => BeginInvocation(job, s, s3Ok, mirrorOk)
    case Enter => s.(phase := if s.flag then Rollback else Top)
    case TopCheck =>
      if s.offset >= job.total then s.(phase := Clearing, watch := s.watch.(armed := false))
      else if s.flag then s.(phase := Rollback)
      else s.(phase := Starting)
    case StartBatch =>
      s.(phase := InBatch, end := Min(s.offset + job.interval, job.total), batch := {},
         late := s.late + if s.flag then 1 else 0)
    case WriteFile(p, rs) => s.(files := s.files[p := rs], batch := s.batch + rs, mine := s.mine + {p})
    case BatchReturns => s.(phase := Written)
    case Track(ps) => s.(phase := Saving, tracked := s.tracked + ps, offset := s.end, batch := {})
    case Save(landed) =>
      var c := Checkpoint(s.offset, s.manifest);
      s.(phase := if job.mirrored then Mirroring else PostCheck,
         s3 := if landed then Some(c) else s.s3, checkpoint := Some(c))
    case Mirror(landed) =>
      s.(phase := PostCheck,
         mirror := if landed then Some(Checkpoint(s.offset, s.manifest)) else s.mirror)
    case PostChunk => s.(phase := if s.flag then Rollback else Top)
    case FinalSave(landed) =>
      s.(phase := if job.mirrored then RollbackMirror else Deleting,
         s3 := if landed then Some(Checkpoint(s.resume, ManifestOf(s.checkpoint))) else s.s3,
         todo := Doomed(s))
    case FinalMirror(landed) =>
      s.(phase := Deleting,
         mirror := if landed then Some(Checkpoint(s.resume, ManifestOf(s.checkpoint))) else s.mirror)
    case DeleteOne(landed) =>
      if s.todo == [] then s
      else s.(files := if landed then s.files - {s.todo[0]} else s.files, todo := s.todo[1..])
    case RollbackEnds => s.(phase := Off, outcome := RolledBack)
    case ClearS3(landed) =>
      var t := s.(s3 := if landed then None else s.s3);
      if job.mirrored then t.(phase := ClearingMirror) else Succeed(t)
    case ClearMirror(landed) => Succeed(s.(mirror := if landed then None else s.mirror))
    case Crash => s.(phase := Off, outcome := Crashed, crashes := s.crashes + 1)
    case WatchCheck => s.(watch := s.watch.(pc := if s.watch.armed then Reading else Ended))
    case WatchRead(remaining) =>
      s.(watch := s.watch.(pc :=
           if remaining.None? || remaining.value > job.threshold then Polling
           else Firing(remaining.value)))
    case WatchFire =>
      if s.watch.done || !s.watch.pc.Firing? then s.(watch := s.watch.(pc := Ended))
      else s.(watch := Watch(s.watch.armed, true, Ended), flag := true, fired := s.fired + 1,
              low := Some(s.watch.pc.reading))
  }

  /** The state after a list of steps. */
  function Exec(job: Job, s: State, acts: seq<Action>): State {
    if acts == [] then s
    else Apply(job, Exec(job, s, acts[..|acts| - 1]), acts[|acts| - 1])
  }

  /** The process may die at any point of an invocation. Everything stored stays as it is, and the next
      invocation may begin. */
  lemma DeathAnywhere(job: Job, s: State, s3Ok: bool, mirrorOk: bool)
    requires Live(s)
    ensures Enabled(job, s, Crash)
    ensures var t := Apply(job, s, Crash);
            && t.files == s.files && t.s3 == s.s3 && t.mirror == s.mirror
            && t.outcome.Crashed? && t.crashes == s.crashes + 1 && t.wins == s.wins
            && Enabled(job, t, Begin(s3Ok, mirrorOk))
  {
  }

  /** Every step is enabled where it is taken and allowed by the environment. */
  ghost predicate Legal(job: Job, s: State, acts: seq<Action>, env: Env) {
    acts == [] ||
    var before := acts[..|acts| - 1];
    var m := Exec(job, s, before);
    Legal(job, s, before, env) && Enabled(job, m, acts[|acts| - 1]) && Obeys(m, acts[|acts| - 1], env)
  }

  // ---- what the files hold ----

  predicate Holds(files: map<Path, set<nat>>, r: nat) {
    exists p :: p in files && r in files[p]
  }

  /** Every record below n is in some stored file. */
  ghost predicate Covered(files: map<Path, set<nat>>, n: nat) {
    forall r: nat | r < n :: Holds(files, r)
  }

  ghost predicate CoversCheckpoint(files: map<Path, set<nat>>, c: Option<Checkpoint>) {
    c.Some? ==> Covered(files, c.value.offset)
  }

  /** The files stored before the live invocation began. */
  function Older(s: State): map<Path, set<nat>> { s.files - s.mine }

  /** The files not written by a live invocation. */
  function Settled(s: State): map<Path, set<nat>> { if Live(s) then Older(s) else s.files }

  /** How many stored files hold record r. */
  function Copies(files: map<Path, set<nat>>, r: nat): nat {
    |set p | p in files && r in files[p]|
  }
}
