/** The watchdog thread interleaved with the writing thread, step by step. */
module WriterWatchdog {
  import opened Wrappers
  import opened WriterModel
  import opened WriterRollback

  // ---- the callback ----

  /** The flag, the once-only latch and the count of callbacks say the same thing, and a callback was
      preceded by a reading at or below the threshold. */
  ghost predicate CallbackShape(job: Job, s: State) {
    && s.flag == s.watch.done
    && s.fired == (if s.watch.done then 1 else 0)
    && (s.watch.done <==> s.low.Some?)
    && (s.low.Some? ==> s.low.value <= job.threshold)
    && (s.watch.pc.Firing? ==> s.watch.pc.reading <= job.threshold)
  }

  lemma CallbackStep(job: Job, s: State, a: Action)
    requires CallbackShape(job, s) && Enabled(job, s, a)
    ensures CallbackShape(job, Apply(job, s, a))
  {
  }

  /** At most one batch starts with the flag already set, and after it the loop is never re-entered. */
  ghost predicate LateShape(s: State) {
    && s.late <= 1
    && (s.late == 1 ==> s.flag && !s.phase.Entered? && !s.phase.Top? && !s.phase.Starting?
                        && !s.phase.Clearing? && !s.phase.ClearingMirror?)
  }

  lemma LateStep(job: Job, s: State, a: Action)
    requires LateShape(s) && Enabled(job, s, a)
    ensures LateShape(Apply(job, s, a))
  {
  }

  lemma {:induction false} WatchRun(job: Job, s: State, acts: seq<Action>, env: Env)
    requires CallbackShape(job, s) && LateShape(s) && Legal(job, s, acts, env)
    ensures CallbackShape(job, Exec(job, s, acts)) && LateShape(Exec(job, s, acts))
  {
    if acts != [] {
      var before := acts[..|acts| - 1];
      WatchRun(job, s, before, env);
      CallbackStep(job, Exec(job, s, before), acts[|acts| - 1]);
      LateStep(job, Exec(job, s, before), acts[|acts| - 1]);
    }
  }

  /** In every invocation of every run: the callback fires at most once, the flag is set only by it and
      only after a reading at or below the threshold, and at most one batch_writer call starts after the
      flag is set. */
  lemma {:induction false} WatchdogSafe(job: Job, s: State, acts: seq<Action>, env: Env)
    requires Init(s) && Legal(job, s, acts, env)
    ensures var t := Exec(job, s, acts);
            && t.fired <= 1 && t.late <= 1
            && (t.flag <==> t.fired == 1)
            && (t.flag ==> t.low.Some? && t.low.value <= job.threshold)
  {
    WatchRun(job, s, acts, env);
  }

  /** Past the last batch: the loop is not entered again in this invocation. */
  ghost predicate PastLast(s: State) {
    s.phase.Off? || (s.flag && !s.phase.Entered? && !s.phase.Top? && !s.phase.Starting?
                     && !s.phase.Clearing? && !s.phase.ClearingMirror?)
  }

  lemma PastLastStep(job: Job, s: State, a: Action)
    requires Enabled(job, s, a) && (PastLast(s) || (a.StartBatch? && s.flag)) && !a.Begin?
    ensures PastLast(Apply(job, s, a))
  {
  }

  /** Step k of a run is enabled where it is taken. */
  lemma {:induction false} EnabledAt(job: Job, s: State, acts: seq<Action>, env: Env, k: nat)
    requires Legal(job, s, acts, env) && k < |acts|
    ensures Enabled(job, Exec(job, s, acts[..k]), acts[k])
    ensures Exec(job, s, acts[..k + 1]) == Apply(job, Exec(job, s, acts[..k]), acts[k])
  {
    assert acts[..k + 1][..k] == acts[..k];
    if k < |acts| - 1 {
      var before := acts[..|acts| - 1];
      EnabledAt(job, s, before, env, k);
      assert before[..k] == acts[..k] && before[..k + 1] == acts[..k + 1];
    } else {
      assert acts[..|acts|] == acts;
    }
  }

  lemma {:induction false} PastLastNext(job: Job, s: State, acts: seq<Action>, env: Env, m: nat)
    requires Legal(job, s, acts, env) && m < |acts| && !acts[m].Begin?
    requires var t := Exec(job, s, acts[..m]); PastLast(t) || (acts[m].StartBatch? && t.flag)
    ensures PastLast(Exec(job, s, acts[..m + 1]))
  {
    EnabledAt(job, s, acts, env, m);
    PastLastStep(job, Exec(job, s, acts[..m]), acts[m]);
  }

  lemma {:induction false} PastLastRun(job: Job, s: State, acts: seq<Action>, env: Env, i: nat, j: nat)
    requires Legal(job, s, acts, env) && i < j <= |acts|
    requires acts[i].StartBatch? && Exec(job, s, acts[..i]).flag
    requires forall k :: i < k < j ==> !acts[k].Begin?
    ensures PastLast(Exec(job, s, acts[..j]))
    decreases j
  {
    var m := j - 1;
    if m > i {
      PastLastRun(job, s, acts, env, i, m);
    }
    PastLastNext(job, s, acts, env, m);
  }

  /** Between two batch_writer calls that start with the flag already set lies a new invocation. */
  lemma {:induction false} OneLateBatch(job: Job, s: State, acts: seq<Action>, env: Env, i: nat, j: nat)
    requires Legal(job, s, acts, env) && i < j < |acts| && acts[i].StartBatch? && acts[j].StartBatch?
    requires Exec(job, s, acts[..i]).flag && Exec(job, s, acts[..j]).flag
    ensures exists k :: i < k < j && acts[k].Begin?
  {
    if forall k :: i < k < j ==> !acts[k].Begin? {
      PastLastRun(job, s, acts, env, i, j);
      EnabledAt(job, s, acts, env, j);
    }
  }

  // ---- the flag and the verdict ----

  /** The flag is set and the writing thread still has to look at it, or has already lost. */
  ghost predicate SeesFlag(job: Job, s: State) {
    || (s.flag && Live(s) && !s.phase.Clearing? && !s.phase.ClearingMirror?
        && (s.phase.Top? ==> s.offset < job.total))
    || s.phase.Rollback? || s.phase.RollbackMirror? || s.phase.Deleting?
    || (s.phase.Off? && (s.outcome.Crashed? || s.outcome.RolledBack?))
  }

  ghost predicate NoBegin(acts: seq<Action>) { forall a :: a in acts ==> !a.Begin? }

  lemma SeesFlagStep(job: Job, s: State, a: Action)
    requires SeesFlag(job, s) && Enabled(job, s, a) && !a.Begin?
    ensures SeesFlag(job, Apply(job, s, a))
  {
  }

  lemma {:induction false} SeesFlagRun(job: Job, s: State, acts: seq<Action>, env: Env)
    requires SeesFlag(job, s) && Legal(job, s, acts, env) && NoBegin(acts)
    ensures SeesFlag(job, Exec(job, s, acts))
  {
    if acts != [] {
      var before := acts[..|acts| - 1];
      SeesFlagRun(job, s, before, env);
      SeesFlagStep(job, Exec(job, s, before), acts[|acts| - 1]);
    }
  }

  /** Clearing what is left to clear ends in success. */
  lemma ClearsFrom(job: Job, s: State, acts: seq<Action>)
    requires Legal(job, s, acts, ANY_ENV) && NoBegin(acts)
    requires var t := Exec(job, s, acts); t.phase.Clearing? || t.phase.ClearingMirror?
    ensures CanSucceed(job, s)
    decreases Exec(job, s, acts).phase.Clearing?
  {
    var t := Exec(job, s, acts);
    var a := if t.phase.Clearing? then ClearS3(true) else ClearMirror(true);
    Snoc(job, s, acts, a, ANY_ENV);
    var more := acts + [a];
    assert Exec(job, s, more) == Apply(job, t, a) && NoBegin(more);
    if !Apply(job, t, a).outcome.Succeeded? {
      ClearsFrom(job, s, more);
    }
  }

  ghost predicate CanSucceed(job: Job, s: State) {
    exists acts: seq<Action> :: Legal(job, s, acts, ANY_ENV) && NoBegin(acts)
                                && Exec(job, s, acts).outcome.Succeeded?
  }

  /** Exactly when a live invocation whose flag is set can still report success: the writing thread is
      past its last look at the flag, that is, clearing its checkpoint or at the head of the loop with
      nothing left to write. In every other position it rolls back or dies. */
  lemma FlagDecides(job: Job, s: State)
    requires s.flag && Live(s) && s.outcome.Pending?
    ensures CanSucceed(job, s) <==>
              s.phase.Clearing? || s.phase.ClearingMirror? || (s.phase.Top? && s.offset >= job.total)
  {
    if s.phase.Clearing? || s.phase.ClearingMirror? || (s.phase.Top? && s.offset >= job.total) {
      if s.phase.Top? {
        Snoc(job, s, [], TopCheck, ANY_ENV);
        ClearsFrom(job, s, [] + [TopCheck]);
      } else {
        ClearsFrom(job, s, []);
      }
    } else {
      forall acts | Legal(job, s, acts, ANY_ENV) && NoBegin(acts)
        ensures !Exec(job, s, acts).outcome.Succeeded?
      {
        SeesFlagRun(job, s, acts, ANY_ENV);
        PendingRun(job, s, acts);
      }
    }
  }

  lemma PendingStep(job: Job, s: State, a: Action)
    requires (Live(s) ==> s.outcome.Pending?) && Enabled(job, s, a) && !a.Begin?
    ensures Live(Apply(job, s, a)) ==> Apply(job, s, a).outcome.Pending?
  {
  }

  lemma {:induction false} PendingRun(job: Job, s: State, acts: seq<Action>)
    requires s.outcome.Pending? && Legal(job, s, acts, ANY_ENV) && NoBegin(acts)
    ensures Live(Exec(job, s, acts)) ==> Exec(job, s, acts).outcome.Pending?
  {
    if acts != [] {
      var before := acts[..|acts| - 1];
      PendingRun(job, s, before);
      PendingStep(job, Exec(job, s, before), acts[|acts| - 1]);
    }
  }

  // ---- disarming ----

  ghost predicate CanFire(job: Job, s: State) {
    exists acts: seq<Action> :: Legal(job, s, acts, ANY_ENV) && NoBegin(acts)
                                && Exec(job, s, acts).fired > s.fired
  }

  ghost predicate Asleep(s: State) { !s.watch.armed && (s.watch.pc.Polling? || s.watch.pc.Ended?) }

  lemma AsleepStep(job: Job, s: State, a: Action)
    requires Asleep(s) && Enabled(job, s, a) && !a.Begin?
    ensures Asleep(Apply(job, s, a)) && Apply(job, s, a).fired == s.fired
  {
  }

  lemma {:induction false} AsleepRun(job: Job, s: State, acts: seq<Action>)
    requires Asleep(s) && Legal(job, s, acts, ANY_ENV) && NoBegin(acts)
    ensures Asleep(Exec(job, s, acts)) && Exec(job, s, acts).fired == s.fired
  {
    if acts != [] {
      AsleepRun(job, s, acts[..|acts| - 1]);
      AsleepStep(job, Exec(job, s, acts[..|acts| - 1]), acts[|acts| - 1]);
    }
  }

  lemma FiringFires(job: Job, s: State, acts: seq<Action>)
    requires Legal(job, s, acts, ANY_ENV) && NoBegin(acts)
    requires var t := Exec(job, s, acts); Live(t) && t.watch.pc.Firing? && !t.watch.done && t.fired == s.fired
    ensures CanFire(job, s)
  {
    Snoc(job, s, acts, WatchFire, ANY_ENV);
    var more := acts + [WatchFire];
    assert Exec(job, s, more).fired > s.fired;
    assert NoBegin(more);
  }

  lemma AwakeFires(job: Job, s: State)
    requires Live(s) && !s.watch.done && (s.watch.pc.Reading? || s.watch.pc.Firing?)
    ensures CanFire(job, s)
  {
    if s.watch.pc.Firing? {
      FiringFires(job, s, []);
    } else {
      var read := WatchRead(Some(job.threshold));
      Snoc(job, s, [], read, ANY_ENV);
      assert [] + [read] == [read];
      FiringFires(job, s, [read]);
    }
  }

  /** Disarming stops the callback unless the watchdog had already passed its loop test: with the
      watchdog disarmed and the callback not yet run, it can still run iff the thread is reading the
      clock or about to call back. */
  lemma DisarmRace(job: Job, s: State)
    requires Live(s) && !s.watch.armed && !s.watch.done
    ensures CanFire(job, s) <==> s.watch.pc.Reading? || s.watch.pc.Firing?
  {
    if s.watch.pc.Reading? || s.watch.pc.Firing? {
      AwakeFires(job, s);
    } else if CanFire(job, s) {
      var acts :| Legal(job, s, acts, ANY_ENV) && NoBegin(acts) && Exec(job, s, acts).fired > s.fired;
      AsleepRun(job, s, acts);
      assert false;
    }
  }
}
