/** The writer as its own code runs it. Every method is proved to be a run of the step system of
    WriterModel, so what is proved there of all runs holds of these objects. */
module SafeWriter {
  import opened Wrappers
  import opened WriterModel
  import opened WriterSafety
  import opened WriterCopies
  import opened Chunking
  import opened Stores
  import opened Watchdog
  import opened S3Track
  import opened Text

  const FAULTLESS := Env(true, true, true, true, true, true)

  /** What is left of env's promises after the step a. */
  ghost function Narrow(env: Env, s: State, a: Action): (e: Env)
    ensures Weaker(e, env) && Obeys(s, a, e)
  {
    Env(
      env.tracksAll && (a.Track? ==> s.mine <= ToSet(s.tracked + a.paths)),
      env.finalSavesLand && (a.FinalSave? || a.FinalMirror? ==> a.landed),
      env.deletesLand && (a.DeleteOne? ==> a.landed),
      env.loadsLand && (a.Begin? ==> a.s3Ok && a.mirrorOk),
      env.savesLand && (a.Save? || a.Mirror? ==> a.landed),
      env.politeCrashes && (a.Crash? ==> s.phase.Entered? || s.phase.Top? || s.phase.Starting?
                                         || s.phase.PostCheck? || s.phase.Rollback?))
  }

  /** The states a run passes through: one more than there are steps. */
  ghost predicate Traced(job: Job, states: seq<State>, acts: seq<Action>, env: Env) {
    && |states| == |acts| + 1
    && forall k {:trigger acts[k]} :: 0 <= k < |acts| ==>
         && Enabled(job, states[k], acts[k])
         && Obeys(states[k], acts[k], env)
         && states[k + 1] == Apply(job, states[k], acts[k])
  }

  lemma TracedLast(job: Job, states: seq<State>, acts: seq<Action>, env: Env)
    requires Traced(job, states, acts, env) && acts != []
    ensures var n := |acts| - 1;
            && Traced(job, states[..n + 1], acts[..n], env)
            && Enabled(job, states[n], acts[n]) && Obeys(states[n], acts[n], env)
            && states[n + 1] == Apply(job, states[n], acts[n])
  {
    var n := |acts| - 1;
    var before := acts[..n];
    assert forall k {:trigger before[k]} :: 0 <= k < n ==> before[k] == acts[k];
  }

  lemma {:induction false} TracedIsRun(job: Job, states: seq<State>, acts: seq<Action>, env: Env)
    requires Traced(job, states, acts, env)
    ensures Legal(job, states[0], acts, env)
    ensures Exec(job, states[0], acts) == states[|acts|]
  {
    if acts != [] {
      var n := |acts| - 1;
      TracedLast(job, states, acts, env);
      TracedIsRun(job, states[..n + 1], acts[..n], env);
      ReachesNext(job, states[0], acts, states[n], env);
    }
  }

  lemma ReachesNext(job: Job, s: State, acts: seq<Action>, m: State, env: Env)
    requires acts != []
    requires Legal(job, s, acts[..|acts| - 1], env) && Exec(job, s, acts[..|acts| - 1]) == m
    requires Enabled(job, m, acts[|acts| - 1]) && Obeys(m, acts[|acts| - 1], env)
    ensures Legal(job, s, acts, env) && Exec(job, s, acts) == Apply(job, m, acts[|acts| - 1])
  {
  }

  lemma TracedSnoc(job: Job, states: seq<State>, acts: seq<Action>, env: Env, a: Action, env': Env)
    requires Traced(job, states, acts, env) && Enabled(job, states[|acts|], a)
    requires Weaker(env', env) && Obeys(states[|acts|], a, env')
    ensures Traced(job, states + [Apply(job, states[|acts|], a)], acts + [a], env')
  {
    var more := acts + [a];
    forall k {:trigger more[k]} | 0 <= k < |acts| ensures Obeys(states[k], acts[k], env') {
      assert more[k] == acts[k];
    }
  }

  /** The batch_writer calls started and the chunk checkpoints saved so far. */
  datatype Tally = Tally(calls: seq<Chunk>, saves: nat)

  ghost function Counted(t: Tally, s: State, a: Action): Tally {
    if a.StartBatch? then
      t.(calls := t.calls + [Chunk(s.offset, if s.end > s.offset then s.end else s.offset)])
    else if a.Save? then t.(saves := t.saves + 1)
    else t
  }

  /** What has happened to one job so far, over all its invocations. */
  class Ledger {
    const job: Job
    ghost var states: seq<State>
    ghost var history: seq<Action>
    ghost var model: State
    ghost var env: Env
    ghost var tally: Tally

    /** `env` is what the environment has so far kept to. */
    ghost predicate Valid()
      reads this
    {
      && job.Valid() && Traced(job, states, history, env)
      && Init(states[0]) && states[|history|] == model
    }

    constructor (job: Job, ghost origin: State)
      requires job.Valid() && Init(origin)
      ensures Valid() && this.job == job && model == origin && history == [] && env == FAULTLESS
    {
      this.job := job;
      this.states := [origin];
      this.history := [];
      this.model := origin;
      this.env := FAULTLESS;
      this.tally := Tally([], 0);
    }

    /** The history is a run of the step system from a fresh job to the present state. */
    lemma IsRun()
      requires Valid()
      ensures Init(states[0]) && Legal(job, states[0], history, env)
      ensures Exec(job, states[0], history) == model && Bookkeeping(job, model)
    {
      TracedIsRun(job, states, history, env);
      BookkeepingAlways(job, states[0], history, env);
    }

    ghost method Take(a: Action)
      requires Valid() && Enabled(job, model, a)
      modifies this
      ensures Valid() && model == Apply(job, old(model), a) && history == old(history) + [a]
      ensures env == Narrow(old(env), old(model), a)
      ensures tally == Counted(old(tally), model, a)
    {
      TracedSnoc(job, states, history, env, a, Narrow(env, model, a));
      env := Narrow(env, model, a);
      model := Apply(job, model, a);
      states := states + [model];
      history := history + [a];
      tally := Counted(tally, model, a);
    }
  }

  /** What stays as it was while batch_writer runs. */
  ghost predicate DuringBatch(s: State, t: State) {
    && t.offset == s.offset && t.end == s.end && t.manifest == s.manifest && t.outcome == s.outcome
    && t.watch.armed == s.watch.armed
    && s.mine <= t.mine && (t.mine - s.mine) !! s.files.Keys
    && SubFiles(s.files, t.files)
    && Older(t) == Older(s)
  }

  lemma DuringBatchTrans(s: State, t: State, u: State)
    requires DuringBatch(s, t) && DuringBatch(t, u) && s.mine <= s.files.Keys
    ensures DuringBatch(s, u)
  {
  }

  lemma DuringBatchWrite(job: Job, s: State, p: Path, rs: set<nat>)
    requires Enabled(job, s, WriteFile(p, rs)) && s.mine <= s.files.Keys
    ensures DuringBatch(s, Apply(job, s, WriteFile(p, rs)))
  {
    assert Older(Apply(job, s, WriteFile(p, rs))) == Older(s);
  }

  /** The records the files in `after` hold that are not files of `before`. */
  ghost function Added(before: map<Path, set<nat>>, after: map<Path, set<nat>>): set<nat> {
    set p, r | p in after && p !in before && r in after[p] :: r
  }

  lemma AddedTrans(f: map<Path, set<nat>>, g: map<Path, set<nat>>, h: map<Path, set<nat>>)
    requires SubFiles(f, g) && SubFiles(g, h)
    ensures Added(f, h) == Added(f, g) + Added(g, h)
  {
    forall r | r in Added(f, g) ensures r in Added(f, h) {
      var p :| p in g && p !in f && r in g[p];
      assert p in h && r in h[p];
    }
    forall r | r in Added(g, h) ensures r in Added(f, h) {
      var p :| p in h && p !in g && r in h[p];
      assert p !in f;
    }
    forall r | r in Added(f, h) ensures r in Added(f, g) + Added(g, h) {
      var p :| p in h && p !in f && r in h[p];
      if p in g { assert r in g[p]; }
    }
  }

  lemma AddedOne(files: map<Path, set<nat>>, p: Path, records: set<nat>)
    requires p !in files
    ensures Added(files, files[p := records]) == records && SubFiles(files, files[p := records])
  {
    var g := files[p := records];
    forall r | r in records ensures r in Added(files, g) {
      assert p in g && p !in files && r in g[p];
    }
  }

  /** From t0 to t the loop has worked through the chunks of [resume, offset), saving once after each. */
  ghost predicate OnCourse(t0: Tally, t: Tally, job: Job, resume: nat, offset: nat)
    requires job.Valid()
  {
    && t.calls + Chunks(offset, job.total, job.interval) == t0.calls + Chunks(resume, job.total, job.interval)
    && t.saves - t0.saves == |t.calls| - |t0.calls|
  }

  lemma CourseStep(t0: Tally, s: Tally, t: Tally, job: Job, resume: nat, offset: nat, end: nat, complete: bool)
    requires job.Valid() && OnCourse(t0, s, job, resume, offset) && offset < job.total
    requires end == Min(offset + job.interval, job.total)
    requires t.calls <= s.calls + [Chunk(offset, end)]
    requires complete ==> t == Tally(s.calls + [Chunk(offset, end)], s.saves + 1)
    ensures complete ==> OnCourse(t0, t, job, resume, end)
    ensures t.calls <= t0.calls + Chunks(resume, job.total, job.interval)
  {
    var rest := Chunks(end, job.total, job.interval);
    assert s.calls + [Chunk(offset, end)] + rest == s.calls + Chunks(offset, job.total, job.interval);
  }

  ghost predicate SameFiles(s: State, t: State) {
    t.files == s.files && t.mine == s.mine
  }

  lemma WinsStep(job: Job, s: State, a: Action)
    requires (s.outcome.Succeeded? ==> s.wins > 0) && Enabled(job, s, a)
    ensures Apply(job, s, a).outcome.Succeeded? ==> Apply(job, s, a).wins > 0
  {
  }

  lemma {:induction false} WinsCount(job: Job, s: State, acts: seq<Action>, env: Env)
    requires Init(s) && Legal(job, s, acts, env)
    ensures Exec(job, s, acts).outcome.Succeeded? ==> Exec(job, s, acts).wins > 0
  {
    if acts != [] {
      var before := acts[..|acts| - 1];
      WinsCount(job, s, before, env);
      WinsStep(job, Exec(job, s, before), acts[|acts| - 1]);
    }
  }

  /** At most the given paths have been removed, and all of them if every delete landed. */
  ghost predicate Removed(before: map<Path, set<nat>>, after: map<Path, set<nat>>, paths: set<Path>, all: bool) {
    && SubFiles(after, before)
    && SubFiles(before - paths, after)
    && (all ==> after == before - paths)
  }

  /** Of the first i paths, those that are s3:// URIs and whose delete works; the deletes are numbered from n. */
  ghost function Deleted(works: nat -> bool, n: nat, paths: seq<Path>, i: nat): set<Path>
    requires i <= |paths|
  {
    set j | 0 <= j < i && "s3://" <= paths[j] && works(n + j) :: paths[j]
  }

  lemma DeletedOne(works: nat -> bool, n: nat, paths: seq<Path>, i: nat)
    requires i < |paths|
    ensures Deleted(works, n, paths, i + 1)
         == Deleted(works, n, paths, i) + if "s3://" <= paths[i] && works(n + i) then {paths[i]} else {}
    ensures ToSet(paths[..i + 1]) == ToSet(paths[..i]) + {paths[i]}
  {
    assert paths[..i + 1] == paths[..i] + [paths[i]];
    var now, next := Deleted(works, n, paths, i), Deleted(works, n, paths, i + 1);
    forall p | p in next ensures p in now || (p == paths[i] && "s3://" <= p && works(n + i)) {
      var j :| 0 <= j < i + 1 && "s3://" <= paths[j] && works(n + j) && paths[j] == p;
    }
  }

  lemma DeletedWithin(works: nat -> bool, n: nat, paths: seq<Path>)
    ensures Deleted(works, n, paths, |paths|) <= ToSet(paths)
  {
  }

  lemma AllGone(table: Table, n: nat, paths: seq<Path>)
    ensures table.AlwaysWorks() ==>
              forall p :: p in ToSet(paths) && "s3://" <= p ==> p in Deleted(table.works, n, paths, |paths|)
  {
    if table.AlwaysWorks() {
      forall p | p in ToSet(paths) && "s3://" <= p ensures p in Deleted(table.works, n, paths, |paths|) {
        var j :| 0 <= j < |paths| && paths[j] == p;
        assert table.works(n + j);
      }
    }
  }

  ghost function Offset(c: Option<Checkpoint>): nat { if c.Some? then c.value.offset else 0 }

  datatype Verdict = Written | RollbackRaised | CallbackRaised

  /** What the watchdog thread's steps leave as it was. */
  ghost predicate WatchOnly(s: State, t: State) {
    && t.phase == s.phase && t.offset == s.offset && t.end == s.end && t.batch == s.batch
    && t.manifest == s.manifest && t.todo == s.todo && t.mine == s.mine && t.files == s.files
    && t.outcome == s.outcome && t.watch.armed == s.watch.armed
    && (s.flag ==> t.flag)
  }

  class SafeWriter {
    const key: string
    const store: CheckpointStore
    const bridge: DurableCheckpointBridge?
    const durable: DurableContext?
    const table: Table
    const watchdog: WatchdogThread
    const ledger: Ledger
    var resumeOffset: nat
    var checkpoint: Option<Checkpoint>
    var uncommittedPaths: seq<Path>
    var rollback: bool

    ghost predicate Wired() {
      && (bridge != null ==> bridge.store == store)
      && durable == (if bridge == null then null else bridge.durable)
      && ledger.job.mirrored == (durable != null)
      && watchdog.thresholdMs == ledger.job.threshold
    }

    /** The ledger agrees with what is stored. */
    ghost predicate OnDisk()
      reads this, ledger, store, durable, table
    {
      && Wired() && ledger.Valid()
      && ledger.model.files == table.files
      && ledger.model.s3 == store.Document(key)
      && (durable != null ==> ledger.model.mirror == durable.document)
    }

    /** The ledger agrees with the live invocation's fields and threads. */
    ghost predicate Valid()
      reads this, ledger, store, durable, table, watchdog
    {
      && OnDisk()
      && ledger.model.resume == resumeOffset
      && ledger.model.checkpoint == checkpoint
      && ledger.model.tracked == uncommittedPaths
      && ledger.model.flag == rollback
      && ledger.model.watch == watchdog.View()
    }

    constructor (key: string, store: CheckpointStore, bridge: DurableCheckpointBridge?, table: Table,
                 ledger: Ledger)
      requires ledger.Valid() && ledger.model.phase.Off?
      requires bridge != null ==> bridge.store == store
      requires var d := if bridge == null then null else bridge.durable;
               && ledger.job.mirrored == (d != null)
               && (d != null ==> ledger.model.mirror == d.document)
      requires ledger.model.files == table.files && ledger.model.s3 == store.Document(key)
      ensures OnDisk() && fresh(watchdog) && this.ledger == ledger && this.table == table
      ensures this.store == store && this.key == key && this.bridge == bridge
      ensures watchdog.View() == FRESH_WATCH
    {
      this.key := key;
      this.store := store;
      this.bridge := bridge;
      this.durable := if bridge == null then null else bridge.durable;
      this.table := table;
      this.ledger := ledger;
      this.watchdog := new WatchdogThread(ledger.job.threshold);
      resumeOffset, checkpoint, uncommittedPaths, rollback := 0, None, [], false;
    }

    /** The scheduler lets the watchdog thread run for a while. */
    method Interleave()
      requires Valid() && Live(ledger.model)
      modifies this`rollback, watchdog, ledger
      ensures Valid() && WatchOnly(old(ledger.model), ledger.model)
      ensures old(ledger.history) <= ledger.history
      ensures ledger.tally == old(ledger.tally)
      ensures ledger.env == old(ledger.env)
    {
      var n: nat := *;
      while n > 0
        invariant Valid() && WatchOnly(old(ledger.model), ledger.model)
        invariant old(ledger.history) <= ledger.history
        invariant ledger.tally == old(ledger.tally)
        invariant ledger.env == old(ledger.env)
      {
        WatchStep();
        n := n - 1;
      }
    }

    method WatchStep()
      requires Valid() && Live(ledger.model)
      modifies this`rollback, watchdog, ledger
      ensures Valid() && WatchOnly(old(ledger.model), ledger.model)
      ensures old(ledger.history) <= ledger.history
      ensures ledger.tally == old(ledger.tally)
      ensures ledger.env == old(ledger.env)
    {
      match watchdog.at {
        case Polling =>
          watchdog.CheckLoop();
          ledger.Take(WatchCheck);
        case Reading =>
          var remaining: Option<int> := *;
          watchdog.ReadClock(remaining);
          ledger.Take(WatchRead(remaining));
        case Firing(_) =>
          Fire();
        case Ended =>
      }
    }

    /** The watchdog's callback, unless it has run before. */
    method Fire()
      requires Valid() && Live(ledger.model) && watchdog.at.Firing?
      modifies this`rollback, watchdog, ledger
      ensures Valid() && WatchOnly(old(ledger.model), ledger.model)
      ensures old(ledger.history) <= ledger.history
      ensures ledger.tally == old(ledger.tally)
      ensures ledger.env == old(ledger.env)
    {
      var call := watchdog.InvokeCallbackOnce();
      if call {
        rollback := true;
      }
      ledger.Take(WatchFire);
    }

    // ---- entering the context ----

    /** Ready to write: nothing added yet, the loop not begun. */
    ghost predicate JustEntered()
      reads this, ledger, store, durable, table, watchdog
    {
      && Valid() && ledger.model.phase.Top? && ledger.model.offset == resumeOffset
      && ledger.model.mine == {} && uncommittedPaths == []
    }

    /** The invocation is over, one way or another. */
    ghost predicate Ended(outcome: Outcome)
      reads this, ledger, store, durable, table
    {
      OnDisk() && ledger.model.phase.Off? && ledger.model.outcome == outcome
    }

    /** What the next load will find. */
    ghost function Fetched(): Option<Checkpoint>
      reads this, ledger, store, durable
    {
      Loaded(ledger.job, ledger.model, store.NextWorks(), durable != null && durable.NextWorks())
    }

    method Enter() returns (entered: bool)
      requires OnDisk() && ledger.model.phase.Off? && watchdog.View() == FRESH_WATCH
      modifies this, watchdog, ledger, store, durable, table
      ensures entered ==> JustEntered() && table.files == old(table.files)
      ensures entered ==> resumeOffset == Offset(old(Fetched()))
      ensures entered && ledger.env.loadsLand ==> resumeOffset == old(Stored(ledger.job, ledger.model))
      ensures !entered ==> Ended(RolledBack)
      ensures !entered && store.AlwaysWorks() ==> RolledTo(resumeOffset)
      ensures old(ledger.history) <= ledger.history
    {
      LoadCheckpoint();
      Interleave();
      ledger.Take(Action.Enter);
      if rollback {
        HandleRollback();
        return false;
      }
      return true;
    }

    /** A new process: its fields are set from the checkpoint it finds, if it finds one. */
    method LoadCheckpoint()
      requires OnDisk() && ledger.model.phase.Off? && watchdog.View() == FRESH_WATCH
      modifies this, ledger, store`calls, durable
      ensures Valid() && ledger.model.phase.Entered? && ledger.model.offset == resumeOffset
      ensures checkpoint == old(Fetched()) && resumeOffset == Offset(checkpoint)
      ensures ledger.model.mine == {} && uncommittedPaths == [] && ledger.model.manifest == ManifestOf(checkpoint)
      ensures ledger.env.loadsLand ==> resumeOffset == old(Stored(ledger.job, ledger.model))
      ensures old(ledger.history) <= ledger.history && ledger.tally == old(ledger.tally)
    {
      ghost var worked := store.NextWorks();
      ghost var mirrorWorked := durable != null && durable.NextWorks();
      var loaded := Fetch();
      ledger.Take(Begin(worked, mirrorWorked || durable == null || (worked && store.Document(key).Some?)));
      uncommittedPaths, rollback, checkpoint := [], false, loaded;
      resumeOffset := 0;
      if loaded.Some? {
        resumeOffset := loaded.value.offset;
      }
    }

    /** Asks the bridge if there is one, else the store. */
    method Fetch() returns (loaded: Option<Checkpoint>)
      requires OnDisk()
      modifies store`calls, durable
      ensures OnDisk() && loaded == old(Fetched()) && store.calls == old(store.calls) + 1
      ensures durable != null ==> durable.document == old(durable.document)
    {
      if bridge != null {
        loaded := bridge.Load(key);
      } else {
        loaded := store.Load(key);
      }
    }

    /** Sends a checkpoint to the bridge if there is one, else to the store. */
    method StoreCheckpoint(c: Checkpoint)
      requires Wired()
      modifies store, durable
      ensures Sent(c, old(store.calls), old(store.checkpoints), if durable != null then old(durable.calls) else 0,
                   if durable != null then old(durable.document) else None)
    {
      if bridge != null {
        bridge.Save(key, c);
      } else {
        store.Save(key, c);
      }
    }

    /** One put went to each store, and each holds c if its put worked and what it held before if not. */
    ghost predicate Sent(c: Checkpoint, n: nat, docs: map<string, Checkpoint>, m: nat, doc: Option<Checkpoint>)
      reads store, durable
    {
      && store.calls == n + 1
      && store.checkpoints == (if store.works(n) then docs[key := c] else docs)
      && (durable != null ==> durable.calls == m + 1
                              && durable.document == if durable.works(m) then Some(c) else doc)
    }

    // ---- rolling back ----

    ghost predicate RolledTo(offset: nat)
      reads store
    {
      store.Document(key) == Some(Checkpoint(offset, []))
    }

    method HandleRollback()
      requires Valid() && ledger.model.phase.Rollback?
      modifies table, store, durable, ledger
      ensures Ended(RolledBack)
      ensures old(ledger.history) <= ledger.history
      ensures ledger.tally == old(ledger.tally)
      ensures ledger.env.tracksAll == old(ledger.env.tracksAll)
      ensures Removed(old(table.files), table.files, ToSet(uncommittedPaths), ledger.env.deletesLand)
      ensures table.AlwaysWorks() ==>
                forall p :: p in uncommittedPaths && "s3://" <= p ==> p !in table.files
      ensures var paths := Dedup(uncommittedPaths);
              && table.calls == old(table.calls) + |paths|
              && table.files == old(table.files)
                                - set j | 0 <= j < |paths| && "s3://" <= paths[j]
                                          && table.works(old(table.calls) + j) :: paths[j]
      ensures Sent(Checkpoint(resumeOffset, []), old(store.calls), old(store.checkpoints),
                   if durable != null then old(durable.calls) else 0,
                   if durable != null then old(durable.document) else None)
    {
      ledger.IsRun();
      DoomedIsMine(ledger.model);
      var doomed := Dedup(ManifestOf(checkpoint) + uncommittedPaths);
      assert ToSet(doomed) == ToSet(uncommittedPaths) && ManifestOf(checkpoint) == [];
      assert [] + uncommittedPaths == uncommittedPaths;
      SaveFinal();
      RemoveDoomed(doomed);
    }

    /** The second half of a rollback. */
    method RemoveDoomed(doomed: seq<Path>)
      requires OnDisk() && ledger.model.phase.Deleting? && ledger.model.todo == doomed
      modifies table, ledger
      ensures Ended(RolledBack)
      ensures old(ledger.history) <= ledger.history && ledger.tally == old(ledger.tally)
      ensures ledger.env.tracksAll == old(ledger.env.tracksAll)
      ensures Removed(old(table.files), table.files, ToSet(doomed), ledger.env.deletesLand)
      ensures table.AlwaysWorks() ==> forall p :: p in ToSet(doomed) && "s3://" <= p ==> p !in table.files
      ensures table.calls == old(table.calls) + |doomed|
      ensures table.files == old(table.files) - Deleted(table.works, old(table.calls), doomed, |doomed|)
    {
      DeleteUncommittedFiles(doomed);
      assert doomed[..|doomed|] == doomed;
      ledger.Take(RollbackEnds);
      DeletedWithin(table.works, old(table.calls), doomed);
      AllGone(table, old(table.calls), doomed);
    }

    /** The final checkpoint: back to the offset this invocation resumed from. */
    method SaveFinal()
      requires Valid() && ledger.model.phase.Rollback?
      modifies store, durable, ledger
      ensures OnDisk() && ledger.model.phase.Deleting?
      ensures ledger.model.todo == Dedup(ManifestOf(checkpoint) + uncommittedPaths)
      ensures old(ledger.history) <= ledger.history && ledger.tally == old(ledger.tally)
      ensures ledger.env == old(ledger.env).(finalSavesLand := ledger.env.finalSavesLand)
      ensures Sent(Checkpoint(resumeOffset, ManifestOf(checkpoint)), old(store.calls), old(store.checkpoints),
                   if durable != null then old(durable.calls) else 0,
                   if durable != null then old(durable.document) else None)
    {
      ghost var landed := store.NextWorks();
      ghost var mirrored := durable != null && durable.NextWorks();
      StoreCheckpoint(Checkpoint(resumeOffset, ManifestOf(checkpoint)));
      ledger.Take(FinalSave(landed));
      if durable != null {
        ledger.Take(FinalMirror(mirrored));
      }
    }

    /** The adapter's delete loop: each path is tried once; failures are logged and skipped over. */
    method DeleteUncommittedFiles(paths: seq<Path>)
      requires OnDisk() && ledger.model.phase.Deleting? && ledger.model.todo == paths
      modifies table, ledger
      ensures OnDisk() && ledger.model.phase.Deleting? && ledger.model.todo == []
      ensures old(ledger.history) <= ledger.history
      ensures ledger.tally == old(ledger.tally)
      ensures ledger.env == old(ledger.env).(deletesLand := ledger.env.deletesLand)
      ensures Purged(old(table.files), old(table.calls), paths, |paths|)
      ensures table.calls == old(table.calls) + |paths|
      ensures table.files == old(table.files)
                             - set j | 0 <= j < |paths| && "s3://" <= paths[j]
                                       && table.works(old(table.calls) + j) :: paths[j]
    {
      assert paths[..0] == [] && paths[0..] == paths;
      assert old(table.files) - {} == old(table.files);
      for i := 0 to |paths|
        invariant OnDisk() && ledger.model.phase.Deleting? && ledger.model.todo == paths[i..]
        invariant old(ledger.history) <= ledger.history
        invariant ledger.tally == old(ledger.tally)
        invariant ledger.env == old(ledger.env).(deletesLand := ledger.env.deletesLand)
        invariant Purged(old(table.files), old(table.calls), paths, i)
      {
        DeleteOnePath(paths, i, old(table.files), old(table.calls));
      }
    }

    /** Path number i of the list. */
    method DeleteOnePath(paths: seq<Path>, i: nat, ghost files: map<Path, set<nat>>, ghost n: nat)
      requires OnDisk() && ledger.model.phase.Deleting? && i < |paths| && ledger.model.todo == paths[i..]
      requires Purged(files, n, paths, i)
      modifies table, ledger
      ensures OnDisk() && ledger.model.phase.Deleting? && ledger.model.todo == paths[i + 1..]
      ensures Purged(files, n, paths, i + 1)
      ensures old(ledger.history) <= ledger.history
      ensures ledger.tally == old(ledger.tally)
      ensures ledger.env == old(ledger.env).(deletesLand := ledger.env.deletesLand)
    {
      DeletedOne(table.works, n, paths, i);
      TryDelete(paths[i]);
    }

    method TryDelete(path: Path)
      requires OnDisk() && ledger.model.phase.Deleting? && ledger.model.todo != [] && ledger.model.todo[0] == path
      modifies table, ledger
      ensures table.calls == old(table.calls) + 1
      ensures OnDisk()
      ensures table.files == if "s3://" <= path && table.works(old(table.calls)) then old(table.files) - {path}
                             else old(table.files)
      ensures ledger.model.phase.Deleting? && ledger.model.todo == old(ledger.model).todo[1..]
      ensures old(ledger.history) <= ledger.history
      ensures ledger.tally == old(ledger.tally)
      ensures ledger.env == old(ledger.env).(deletesLand := old(ledger.env).deletesLand
                                                            && "s3://" <= path && table.works(old(table.calls)))
    {
      ghost var landed := "s3://" <= path && table.works(table.calls);
      table.Delete(path);
      ledger.Take(DeleteOne(landed));
    }

    /** The first i paths have been tried: the s3:// URIs whose delete worked are gone, and nothing but them is. */
    ghost predicate Purged(files: map<Path, set<nat>>, n: nat, paths: seq<Path>, i: nat)
      requires i <= |paths|
      reads table, ledger
    {
      && table.calls == n + i
      && table.files == files - Deleted(table.works, n, paths, i)
      && (ledger.env.deletesLand ==> table.files == files - ToSet(paths[..i]))
    }

    // ---- writing ----

    /** The caller's batch_writer: writes the records of [start, end) file by file, in files of its own
        choosing, or raises part-way. */
    method RunBatch(start: nat, end: nat) returns (returned: bool)
      requires Valid() && ledger.model.phase.InBatch? && ledger.model.batch == {}
      requires ledger.model.offset == start && ledger.model.end == end
      requires ledger.model.mine <= table.files.Keys
      modifies table, ledger, watchdog, this`rollback
      ensures returned ==> Valid() && ledger.model.phase.Written? && ledger.model.mine <= table.files.Keys
                           && DuringBatch(old(ledger.model), ledger.model)
                           && table.files.Keys == old(table.files).Keys + ledger.model.mine
                           && Added(old(table.files), table.files) == Range(start, end)
      ensures !returned ==> Ended(Crashed)
      ensures old(ledger.history) <= ledger.history
      ensures ledger.tally == old(ledger.tally)
      ensures ledger.env == old(ledger.env).(politeCrashes := ledger.env.politeCrashes)
    {
      var raised := WriteFiles(start, end);
      if raised {
        return false;
      }
      ledger.Take(BatchReturns);
      return true;
    }

    /** The files of one batch, as many as it takes. */
    method WriteFiles(start: nat, end: nat) returns (raised: bool)
      requires Valid() && ledger.model.phase.InBatch? && ledger.model.batch == {}
      requires ledger.model.offset == start && ledger.model.end == end
      requires ledger.model.mine <= table.files.Keys
      modifies table, ledger, watchdog, this`rollback
      ensures raised ==> Ended(Crashed)
      ensures !raised ==> Valid() && ledger.model.phase.InBatch? && ledger.model.batch == Range(start, end)
      ensures !raised ==> DuringBatch(old(ledger.model), ledger.model)
                          && ledger.model.mine <= table.files.Keys == old(table.files).Keys + ledger.model.mine
                          && Added(old(table.files), table.files) == Range(start, end)
      ensures old(ledger.history) <= ledger.history && ledger.tally == old(ledger.tally)
      ensures ledger.env == old(ledger.env).(politeCrashes := ledger.env.politeCrashes)
    {
      var left := Range(start, end);
      while left != {}
        invariant Valid() && DuringBatch(old(ledger.model), ledger.model) && ledger.model.phase.InBatch?
        invariant left == Range(start, end) - ledger.model.batch && ledger.model.batch <= Range(start, end)
        invariant ledger.model.mine <= table.files.Keys == old(table.files).Keys + ledger.model.mine
        invariant SubFiles(old(table.files), table.files)
        invariant Added(old(table.files), table.files) == ledger.model.batch
        invariant old(ledger.history) <= ledger.history
        invariant ledger.tally == old(ledger.tally)
        invariant ledger.env == old(ledger.env)
        decreases left
      {
        ghost var m, files := ledger.model, table.files;
        left, raised := BatchStep(left);
        if raised {
          return;
        }
        DuringBatchTrans(old(ledger.model), m, ledger.model);
        AddedTrans(old(table.files), files, table.files);
      }
      raised := false;
    }

    /** One more file, or an exception out of the callback. */
    method BatchStep(left: set<nat>) returns (rest: set<nat>, raised: bool)
      requires Valid() && ledger.model.phase.InBatch? && left != {} && ledger.model.mine <= table.files.Keys
      requires left == Range(ledger.model.offset, ledger.model.end) - ledger.model.batch
      requires ledger.model.batch <= Range(ledger.model.offset, ledger.model.end)
      modifies table, ledger, watchdog, this`rollback
      ensures raised ==> Ended(Crashed)
      ensures !raised ==> Valid() && ledger.model.phase.InBatch? && DuringBatch(old(ledger.model), ledger.model)
      ensures rest <= left && (!raised ==> rest < left)
      ensures !raised ==> SubFiles(old(table.files), table.files)
                          && Added(old(table.files), table.files) == left - rest
      ensures !raised ==> rest == Range(ledger.model.offset, ledger.model.end) - ledger.model.batch
                          && ledger.model.batch <= Range(ledger.model.offset, ledger.model.end)
      ensures !raised ==> ledger.model.mine <= table.files.Keys
                          && table.files.Keys == old(table.files).Keys + (ledger.model.mine - old(ledger.model.mine))
      ensures old(ledger.history) <= ledger.history && ledger.tally == old(ledger.tally)
      ensures ledger.env == old(ledger.env).(politeCrashes := ledger.env.politeCrashes)
      ensures !raised ==> ledger.env == old(ledger.env)
    {
      rest := left;
      Interleave();
      raised := *;
      if raised {
        ledger.Take(Crash);
        return;
      }
      rest := WriteOneFile(left);
    }

    method WriteOneFile(left: set<nat>) returns (rest: set<nat>)
      requires Valid() && ledger.model.phase.InBatch? && left != {} && ledger.model.mine <= table.files.Keys
      requires left == Range(ledger.model.offset, ledger.model.end) - ledger.model.batch
      requires ledger.model.batch <= Range(ledger.model.offset, ledger.model.end)
      modifies table, ledger
      ensures Valid() && ledger.model.phase.InBatch? && DuringBatch(old(ledger.model), ledger.model)
      ensures SubFiles(old(table.files), table.files) && Added(old(table.files), table.files) == left - rest
      ensures rest < left && rest == Range(ledger.model.offset, ledger.model.end) - ledger.model.batch
      ensures ledger.model.batch <= Range(ledger.model.offset, ledger.model.end)
      ensures ledger.model.mine <= table.files.Keys
      ensures table.files.Keys == old(table.files).Keys + (ledger.model.mine - old(ledger.model.mine))
      ensures old(ledger.history) <= ledger.history && ledger.env == old(ledger.env)
      ensures ledger.tally == old(ledger.tally)
    {
      var p, records := table.WriteSome(left);
      AddedOne(old(table.files), p, records);
      DuringBatchWrite(ledger.job, ledger.model, p, records);
      ledger.Take(WriteFile(p, records));
      rest := left - records;
    }

    /** Saves the chunk checkpoint; memory moves on whether or not the saves landed. */
    method PersistCheckpoint(offset: nat, manifest: seq<Path>)
      requires Valid() && ledger.model.phase.Saving?
      requires ledger.model.offset == offset && ledger.model.manifest == manifest
      modifies this`checkpoint, store, durable, ledger
      ensures Valid() && ledger.model.phase.PostCheck? && SameFiles(old(ledger.model), ledger.model)
      ensures ledger.model.offset == offset
      ensures checkpoint == Some(Checkpoint(offset, manifest))
      ensures Sent(Checkpoint(offset, manifest), old(store.calls), old(store.checkpoints),
                   if durable != null then old(durable.calls) else 0,
                   if durable != null then old(durable.document) else None)
      ensures old(ledger.history) <= ledger.history && ledger.env.tracksAll == old(ledger.env.tracksAll)
      ensures ledger.tally == old(ledger.tally).(saves := old(ledger.tally).saves + 1)
    {
      var cp := Checkpoint(offset, manifest);
      ghost var landed := store.NextWorks();
      ghost var mirrored := durable != null && durable.NextWorks();
      StoreCheckpoint(cp);
      ledger.Take(Save(landed));
      if durable != null {
        ledger.Take(Mirror(mirrored));
      }
      checkpoint := Some(cp);
    }

    /** The tracker, if it tracks at all, knows every stored file, and what it reported is what this
        invocation added. */
    ghost predicate UpToDate(tracker: Tracker?)
      reads this, ledger, table, tracker
    {
      && ledger.model.mine <= table.files.Keys
      && (tracker != null && tracker.onS3 ==>
            tracker.known == table.files.Keys && ledger.model.mine == ToSet(uncommittedPaths))
      && (tracker == null || !tracker.onS3 ==> uncommittedPaths == [])
    }

    /** Records the paths the finished batch added. */
    method TrackChunk(tracker: Tracker?)
      requires Valid() && ledger.model.phase.Written?
      requires ledger.model.mine <= table.files.Keys && ToSet(uncommittedPaths) <= ledger.model.mine
      requires tracker != null && tracker.onS3 ==>
                 && tracker.known <= table.files.Keys
                 && table.files.Keys - tracker.known == ledger.model.mine - ToSet(uncommittedPaths)
      requires tracker == null || !tracker.onS3 ==> uncommittedPaths == []
      modifies this`uncommittedPaths, ledger, tracker
      ensures Valid() && ledger.model.phase.Saving? && UpToDate(tracker)
      ensures ledger.model.offset == old(ledger.model.end) && SameFiles(old(ledger.model), ledger.model)
      ensures ledger.model.manifest == old(ledger.model.manifest)
      ensures old(ledger.history) <= ledger.history && ledger.tally == old(ledger.tally)
      ensures tracker != null && tracker.onS3 ==> ledger.env.tracksAll == old(ledger.env.tracksAll)
    {
      var paths := [];
      if tracker != null {
        paths := tracker.TrackPaths(table.files.Keys);
      }
      assert ToSet(paths) == Members(paths);
      assert ToSet(uncommittedPaths + paths) == ToSet(uncommittedPaths) + ToSet(paths);
      ledger.Take(Track(paths));
      uncommittedPaths := uncommittedPaths + paths;
    }

    /** One pass of the loop after the flag was seen clear. */
    method WriteChunk(offset: nat, tracker: Tracker?) returns (end: nat, verdict: Verdict)
      requires Valid() && ledger.model.phase.Starting? && ledger.model.offset == offset && UpToDate(tracker)
      modifies this, table, store, durable, watchdog, ledger, tracker
      ensures resumeOffset == old(resumeOffset)
      ensures end == Min(offset + ledger.job.interval, ledger.job.total) && offset < end
      ensures old(ledger.history) <= ledger.history
      ensures ledger.tally.calls == old(ledger.tally.calls) + [Chunk(offset, end)]
      ensures verdict.Written? ==> Valid() && ledger.model.phase.Top? && ledger.model.offset == end
                                   && UpToDate(tracker) && Older(ledger.model) == old(Older(ledger.model))
                                   && ledger.tally.saves == old(ledger.tally.saves) + 1
      ensures verdict.RollbackRaised? ==> Ended(RolledBack)
      ensures verdict.RollbackRaised? && tracker != null && tracker.onS3 && ledger.env.deletesLand ==>
                table.files == old(Older(ledger.model))
      ensures verdict.RollbackRaised? && store.AlwaysWorks() ==> RolledTo(resumeOffset)
      ensures verdict.CallbackRaised? ==> Ended(Crashed)
      ensures tracker != null && tracker.onS3 ==> ledger.env.tracksAll == old(ledger.env.tracksAll)
    {
      var returned;
      end, returned := StoreChunk(offset, tracker);
      if !returned {
        return end, CallbackRaised;
      }
      PersistCheckpoint(end, ManifestOf(checkpoint));
      verdict := AfterChunk(tracker);
    }

    /** Runs the batch and records what it added. */
    method StoreChunk(offset: nat, tracker: Tracker?) returns (end: nat, returned: bool)
      requires Valid() && ledger.model.phase.Starting? && ledger.model.offset == offset && UpToDate(tracker)
      modifies this, table, watchdog, ledger, tracker
      ensures resumeOffset == old(resumeOffset) && old(ledger.history) <= ledger.history
      ensures end == Min(offset + ledger.job.interval, ledger.job.total) && offset < end
      ensures ledger.tally == old(ledger.tally).(calls := old(ledger.tally.calls) + [Chunk(offset, end)])
      ensures returned ==> Valid() && ledger.model.phase.Saving? && ledger.model.offset == end
                           && ledger.model.manifest == ManifestOf(checkpoint)
                           && UpToDate(tracker) && Older(ledger.model) == old(Older(ledger.model))
      ensures !returned ==> Ended(Crashed)
      ensures tracker != null && tracker.onS3 ==> ledger.env.tracksAll == old(ledger.env.tracksAll)
    {
      end := StartChunk(offset);
      assert table.files.Keys - ledger.model.mine == old(table.files.Keys - ledger.model.mine);
      returned := RunBatch(offset, end);
      if returned {
        assert table.files.Keys - old(table.files).Keys == ledger.model.mine - old(ledger.model.mine);
        TrackChunk(tracker);
      }
    }

    /** The call of batch_writer begins. */
    method StartChunk(offset: nat) returns (end: nat)
      requires Valid() && ledger.model.phase.Starting? && ledger.model.offset == offset
      modifies ledger
      ensures Valid() && ledger.model.phase.InBatch? && ledger.model.batch == {}
      ensures old(ledger.history) <= ledger.history
      ensures end == ledger.model.end == Min(offset + ledger.job.interval, ledger.job.total) && offset < end
      ensures ledger.model.offset == offset && SameFiles(old(ledger.model), ledger.model)
      ensures ledger.model.manifest == ManifestOf(checkpoint) && ToSet(uncommittedPaths) <= ledger.model.mine
      ensures ledger.tally == old(ledger.tally).(calls := old(ledger.tally.calls) + [Chunk(offset, end)])
      ensures ledger.env == old(ledger.env)
    {
      ledger.IsRun();
      end := Min(offset + ledger.job.interval, ledger.job.total);
      ledger.Take(StartBatch);
    }

    /** The look at the flag after a chunk. */
    method AfterChunk(tracker: Tracker?) returns (verdict: Verdict)
      requires Valid() && ledger.model.phase.PostCheck? && UpToDate(tracker)
      modifies table, store, durable, watchdog, ledger, this`rollback
      ensures old(ledger.history) <= ledger.history && ledger.tally == old(ledger.tally)
      ensures verdict.Written? ==> Valid() && ledger.model.phase.Top? && UpToDate(tracker)
                                   && ledger.model.offset == old(ledger.model.offset)
                                   && Older(ledger.model) == old(Older(ledger.model))
      ensures verdict.RollbackRaised? ==> Ended(RolledBack)
      ensures verdict.RollbackRaised? && tracker != null && tracker.onS3 && ledger.env.deletesLand ==>
                table.files == old(Older(ledger.model))
      ensures verdict.RollbackRaised? && store.AlwaysWorks() ==> RolledTo(resumeOffset)
      ensures !verdict.CallbackRaised?
      ensures ledger.env.tracksAll == old(ledger.env.tracksAll)
    {
      Interleave();
      ledger.Take(PostChunk);
      verdict := Verdict.Written;
      if rollback {
        HandleRollback();
        verdict := RollbackRaised;
      }
    }

    /** Writes the job's remaining records. On success the loop has called batch_writer on exactly the
        chunks that tile [resumeOffset, total), saving once after each; otherwise on a prefix of them. */
    method Write(tracker: Tracker?) returns (verdict: Verdict)
      requires JustEntered()
      requires tracker != null && tracker.onS3 ==> tracker.known == table.files.Keys
      modifies this, table, store, durable, watchdog, ledger, tracker
      ensures var cs := Chunks(resumeOffset, ledger.job.total, ledger.job.interval);
              && (verdict.Written? ==> ledger.tally == Tally(old(ledger.tally.calls) + cs,
                                                             old(ledger.tally.saves) + |cs|))
              && ledger.tally.calls <= old(ledger.tally.calls) + cs
      ensures resumeOffset == old(resumeOffset) && old(ledger.history) <= ledger.history
      ensures Ended(match verdict case Written => Succeeded
                                  case RollbackRaised => RolledBack
                                  case CallbackRaised => Crashed)
      ensures verdict.RollbackRaised? && tracker != null && tracker.onS3 && ledger.env.deletesLand ==>
                table.files == old(table.files)
      ensures verdict.RollbackRaised? && store.AlwaysWorks() ==> RolledTo(resumeOffset)
      ensures verdict.Written? && store.AlwaysWorks() ==> store.Document(key) == None
      ensures tracker != null && tracker.onS3 ==> ledger.env.tracksAll == old(ledger.env.tracksAll)
    {
      verdict := WriteChunks(tracker);
      if verdict.Written? {
        Finish();
      }
    }

    /** The loop. */
    method WriteChunks(tracker: Tracker?) returns (verdict: Verdict)
      requires JustEntered()
      requires tracker != null && tracker.onS3 ==> tracker.known == table.files.Keys
      modifies this, table, store, durable, watchdog, ledger, tracker
      ensures var cs := Chunks(resumeOffset, ledger.job.total, ledger.job.interval);
              && (verdict.Written? ==> ledger.tally == Tally(old(ledger.tally.calls) + cs,
                                                             old(ledger.tally.saves) + |cs|))
              && ledger.tally.calls <= old(ledger.tally.calls) + cs
      ensures resumeOffset == old(resumeOffset) && old(ledger.history) <= ledger.history
      ensures verdict.Written? ==>
                Valid() && ledger.model.phase.Top? && ledger.model.offset >= ledger.job.total
      ensures !verdict.Written? ==> Ended(if verdict.RollbackRaised? then RolledBack else Crashed)
      ensures verdict.RollbackRaised? && tracker != null && tracker.onS3 && ledger.env.deletesLand ==>
                table.files == old(table.files)
      ensures verdict.RollbackRaised? && store.AlwaysWorks() ==> RolledTo(resumeOffset)
      ensures tracker != null && tracker.onS3 ==> ledger.env.tracksAll == old(ledger.env.tracksAll)
    {
      var total := ledger.job.total;
      var offset := resumeOffset;
      assert Older(ledger.model) == table.files;
      assert offset <= total by { ledger.IsRun(); }
      while offset < total
        invariant offset <= total
        invariant Valid() && ledger.model.phase.Top? && ledger.model.offset == offset && UpToDate(tracker)
        invariant Older(ledger.model) == old(table.files) && resumeOffset == old(resumeOffset)
        invariant old(ledger.history) <= ledger.history
        invariant OnCourse(old(ledger.tally), ledger.tally, ledger.job, resumeOffset, offset)
        invariant tracker != null && tracker.onS3 ==> ledger.env.tracksAll == old(ledger.env.tracksAll)
        decreases total - offset
      {
        ghost var tally, from := ledger.tally, offset;
        offset, verdict := Pass(offset, tracker);
        CourseStep(old(ledger.tally), tally, ledger.tally, ledger.job, resumeOffset, from, offset, verdict.Written?);
        if !verdict.Written? {
          return;
        }
      }
      verdict := Verdict.Written;
    }

    /** One turn of the loop. */
    method Pass(offset: nat, tracker: Tracker?) returns (end: nat, verdict: Verdict)
      requires Valid() && ledger.model.phase.Top? && ledger.model.offset == offset < ledger.job.total
      requires UpToDate(tracker)
      modifies this, table, store, durable, watchdog, ledger, tracker
      ensures resumeOffset == old(resumeOffset) && old(ledger.history) <= ledger.history
      ensures end == Min(offset + ledger.job.interval, ledger.job.total) && offset < end
      ensures ledger.tally.calls <= old(ledger.tally.calls) + [Chunk(offset, end)]
      ensures verdict.Written? ==> Valid() && ledger.model.phase.Top? && ledger.model.offset == end
                                   && UpToDate(tracker) && Older(ledger.model) == old(Older(ledger.model))
                                   && ledger.tally == Tally(old(ledger.tally.calls) + [Chunk(offset, end)],
                                                            old(ledger.tally.saves) + 1)
      ensures !verdict.Written? ==> Ended(if verdict.RollbackRaised? then RolledBack else Crashed)
      ensures verdict.RollbackRaised? && tracker != null && tracker.onS3 && ledger.env.deletesLand ==>
                table.files == old(Older(ledger.model))
      ensures verdict.RollbackRaised? && store.AlwaysWorks() ==> RolledTo(resumeOffset)
      ensures tracker != null && tracker.onS3 ==> ledger.env.tracksAll == old(ledger.env.tracksAll)
    {
      end := Min(offset + ledger.job.interval, ledger.job.total);
      var cleared := LoopTop(offset);
      if !cleared {
        return end, RollbackRaised;
      }
      end, verdict := WriteChunk(offset, tracker);
    }

    /** The look at the flag at the head of the loop. */
    method LoopTop(offset: nat) returns (cleared: bool)
      requires Valid() && ledger.model.phase.Top? && ledger.model.offset == offset < ledger.job.total
      requires ToSet(uncommittedPaths) <= ledger.model.mine
      modifies table, store, durable, watchdog, ledger, this`rollback
      ensures old(ledger.history) <= ledger.history && ledger.tally == old(ledger.tally)
      ensures cleared ==> Valid() && ledger.model.phase.Starting? && ledger.model.offset == offset
                          && table.files == old(table.files) && ledger.model.mine == old(ledger.model.mine)
      ensures !cleared ==> Ended(RolledBack)
      ensures !cleared && ledger.env.deletesLand ==> table.files == old(table.files) - ToSet(uncommittedPaths)
      ensures !cleared && store.AlwaysWorks() ==> RolledTo(resumeOffset)
      ensures ledger.env.tracksAll == old(ledger.env.tracksAll)
    {
      Interleave();
      ledger.Take(TopCheck);
      cleared := !rollback;
      if rollback {
        HandleRollback();
      }
    }

    ghost predicate DurableClears()
      reads durable
    {
      durable != null && true in durable.clears && durable.NextWorks()
    }

    /** Disarms the watchdog and clears both checkpoints. */
    method Finish()
      requires Valid() && ledger.model.phase.Top? && ledger.model.offset >= ledger.job.total
      modifies store, durable, watchdog, ledger
      ensures Ended(Succeeded) && !watchdog.View().armed
      ensures ledger.history == old(ledger.history) + [TopCheck, ClearS3(old(store.NextWorks()))]
                                + (if durable != null then [ClearMirror(old(DurableClears()))] else [])
      ensures store.calls == old(store.calls) + 1 && (old(store.NextWorks()) ==> store.Document(key) == None)
      ensures old(DurableClears()) ==> durable != null && durable.document == None
      ensures ledger.tally == old(ledger.tally)
      ensures ledger.env == old(ledger.env)
    {
      Disarm();
      ClearStore();
      ClearDurable();
    }

    method Disarm()
      requires Valid() && ledger.model.phase.Top? && ledger.model.offset >= ledger.job.total
      modifies watchdog, ledger
      ensures Valid() && ledger.model.phase.Clearing? && !watchdog.View().armed
      ensures ledger.history == old(ledger.history) + [TopCheck]
      ensures ledger.tally == old(ledger.tally) && ledger.env == old(ledger.env)
    {
      ledger.Take(TopCheck);
      watchdog.Disarm();
    }

    method ClearStore()
      requires Valid() && ledger.model.phase.Clearing?
      modifies store, ledger
      ensures OnDisk() && if durable != null then ledger.model.phase.ClearingMirror? else Ended(Succeeded)
      ensures store.calls == old(store.calls) + 1 && (old(store.NextWorks()) ==> store.Document(key) == None)
      ensures ledger.history == old(ledger.history) + [ClearS3(old(store.NextWorks()))]
      ensures ledger.tally == old(ledger.tally)
      ensures ledger.env == old(ledger.env)
    {
      ghost var landed := store.NextWorks();
      store.Delete(key);
      ledger.Take(ClearS3(landed));
    }

    method ClearDurable()
      requires OnDisk()
      requires if durable != null then ledger.model.phase.ClearingMirror? else Ended(Succeeded)
      modifies durable, ledger
      ensures Ended(Succeeded)
      ensures old(DurableClears()) ==> durable != null && durable.document == None
      ensures ledger.history
           == old(ledger.history) + if durable != null then [ClearMirror(old(DurableClears()))] else []
      ensures ledger.tally == old(ledger.tally)
      ensures ledger.env == old(ledger.env)
    {
      if bridge == null {
        return;
      }
      ghost var landed := DurableClears();
      bridge.ClearDurableCheckpoint();
      if durable != null {
        ledger.Take(ClearMirror(landed));
      }
    }

    // ---- what the history guarantees ----

    /** Whatever was done to the job so far: if the rollbacks' final saves landed, the stored checkpoint
        is covered by the stored files, and after a success so is the whole job. */
    lemma Safe()
      requires OnDisk() && ledger.env.finalSavesLand
      ensures CoversCheckpoint(table.files, store.Document(key))
      ensures durable != null ==> CoversCheckpoint(table.files, durable.document)
      ensures ledger.model.phase.Off? && ledger.model.outcome.Succeeded? ==> Covered(table.files, ledger.job.total)
    {
      ledger.IsRun();
      Relax(ledger.job, ledger.states[0], ledger.history, FINAL_SAVES, ledger.env);
      NoLossRun(ledger.job, ledger.states[0], ledger.history);
      WinsCount(ledger.job, ledger.states[0], ledger.history, FINAL_SAVES);
    }
  }
}
