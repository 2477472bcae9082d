/** What a lost opener, or a death between two persists, can still lead to. */
module CoordinatorRecovery {
  import opened Wrappers
  import opened Enums
  import opened CoordinatorModel
  import opened CoordinatorSafety
  import opened CoordinatorTrail

  // ---- disagreement ----

  /** Some continuation, in which every persist that opens a pass lands, ends in a stored verdict that is not
      what every participant able to receive it heard last. */
  ghost predicate CanDisagree(ps: seq<Participant>, s: State) {
    exists acts: seq<Action>, t: State ::
      Run(ps, s, acts, t, OpenersLand) && |t.last| == |ps| && !Agreement(ps, t)
  }

  /** Somebody can be told both to commit and to abort. */
  ghost predicate Undecided(ps: seq<Participant>) {
    exists i :: 0 <= i < |ps| && ps[i].commits && ps[i].aborts
  }

  /** With nobody who can be told both, what is told is never taken back, so progress through a pass is all
      that agreement needs, whatever persists fail. */
  ghost predicate Telling(ps: seq<Participant>, s: State) {
    && Shape(ps, s) && Agreement(ps, s)
    && (s.pc.Passing? ==> ToldCommit(ps, s.last, s.pc.i))
    && (s.pc.Notifying? ==> ToldAbort(ps, s.last, s.pc.i))
  }

  lemma TellingStep(ps: seq<Participant>, s: State, a: Action)
    requires !Undecided(ps) && Telling(ps, s) && Unsettled(s) && Enabled(ps, s, a)
    ensures Telling(ps, Apply(ps, s, a))
  {
    ShapeStep(ps, s, a);
    if a.CommitOne? || a.NotifyOne? {
      TellingCall(ps, s, a);
    } else {
      assert Apply(ps, s, a).last == s.last;
    }
  }

  lemma TellingCall(ps: seq<Participant>, s: State, a: Action)
    requires !Undecided(ps) && Telling(ps, s) && Enabled(ps, s, a) && (a.CommitOne? || a.NotifyOne?)
    ensures Shape(ps, Apply(ps, s, a)) ==> Telling(ps, Apply(ps, s, a))
  {
  }

  lemma {:induction false} TellingRun(ps: seq<Participant>, s: State, acts: seq<Action>, s': State, rule: Rule)
    requires !Undecided(ps) && Telling(ps, s) && Unsettled(s) && Run(ps, s, acts, s', rule)
    ensures Telling(ps, s')
    decreases |acts|
  {
    if acts != [] {
      TellingStep(ps, s, acts[0]);
      UnsettledStep(ps, s, acts[0]);
      TellingRun(ps, Apply(ps, s, acts[0]), acts[1..], s', rule);
    }
  }

  /** So when no participant offers both callbacks, terminal agreement needs no persist to land at all. */
  lemma {:induction false} AgreementUnlost(ps: seq<Participant>, s: State, acts: seq<Action>, s': State)
    requires Init(ps, s) && Run(ps, s, acts, s', AnyPersist) && !Undecided(ps)
    ensures |s'.last| == |ps| && Agreement(ps, s')
  {
    TellingRun(ps, s, acts, s', AnyPersist);
  }

  /** A pass under way tells participant i next, or after those before it. */
  lemma {:induction false} TellsUpTo(ps: seq<Participant>, s: State, i: nat) returns (acts: seq<Action>, t: State)
    requires Shape(ps, s) && (s.pc.Passing? || s.pc.Notifying?) && s.pc.i <= i < |ps|
    requires if s.pc.Passing? then ps[i].commits else ps[i].aborts
    ensures Run(ps, s, acts, t, OpenersLand) && Shape(ps, t) && t.doc == s.doc
    ensures t.last[i] == Some(if s.pc.Passing? then CommitCall else AbortCall)
    decreases i - s.pc.i
  {
    var a := if s.pc.Passing? then CommitOne(true) else NotifyOne;
    var m := Apply(ps, s, a);
    ShapeStep(ps, s, a);
    var rest: seq<Action>;
    if s.pc.i == i {
      rest, t := [], m;
    } else {
      rest, t := TellsUpTo(ps, m, i);
    }
    acts := [a] + rest;
    assert acts[1..] == rest;
  }

  /** A pass under way against the stored verdict can leave it false. */
  lemma PassAgainstVerdict(ps: seq<Participant>, s: State)
    requires Undecided(ps) && Shape(ps, s)
    requires (s.pc.Passing? && Stored(s, Aborted)) || (s.pc.Notifying? && Stored(s, Committed))
    requires s.pc.i == 0
    ensures CanDisagree(ps, s)
  {
    var i :| 0 <= i < |ps| && ps[i].commits && ps[i].aborts;
    var acts, t := TellsUpTo(ps, s, i);
    assert !Agreement(ps, t);
  }

  lemma NeverDisagrees(ps: seq<Participant>, s: State)
    requires Unsettled(s) && (Agreeing(ps, s) || (!Undecided(ps) && Telling(ps, s)))
    ensures !CanDisagree(ps, s)
  {
    forall acts, t | Run(ps, s, acts, t, OpenersLand) ensures |t.last| == |ps| && Agreement(ps, t) {
      if Agreeing(ps, s) {
        AgreementRun(ps, s, acts, t);
      } else {
        TellingRun(ps, s, acts, t, OpenersLand);
      }
    }
  }

  /** The persist that opens a pass: COMMITTING or ABORTING. */
  predicate Opens(a: Action) { a.CommitStart? || a.OpenAbort? }

  /** The stored verdict the pass contradicts. */
  predicate Contradicts(s: State, a: Action) {
    (a.CommitStart? && Stored(s, Aborted)) || (a.OpenAbort? && Stored(s, Committed))
  }

  /** Exactly when opening a pass can make a stored verdict false: its persist is lost over the opposite
      verdict, and some participant offers both callbacks. */
  lemma {:induction false} LostOpenerDisagrees(
    ps: seq<Participant>, s: State, acts: seq<Action>, m: State, a: Action)
    requires Init(ps, s) && Run(ps, s, acts, m, OpenersLand) && Enabled(ps, m, a) && Opens(a)
    ensures CanDisagree(ps, Apply(ps, m, a)) <==> !a.lands && Contradicts(m, a) && Undecided(ps)
  {
    AgreementRun(ps, s, acts, m);
    InvariantsRun(ps, s, acts, m);
    var t := Apply(ps, m, a);
    ShapeStep(ps, m, a);
    UnsettledStep(ps, m, a);
    if !a.lands && Contradicts(m, a) && Undecided(ps) {
      PassAgainstVerdict(ps, t);
    } else {
      OpenerAgrees(ps, m, a);
      NeverDisagrees(ps, t);
    }
  }

  lemma OpenerAgrees(ps: seq<Participant>, m: State, a: Action)
    requires Agreeing(ps, m) && Enabled(ps, m, a) && Opens(a) && Shape(ps, Apply(ps, m, a))
    requires a.lands || !Contradicts(m, a) || !Undecided(ps)
    ensures Agreeing(ps, Apply(ps, m, a)) || (!Undecided(ps) && Telling(ps, Apply(ps, m, a)))
  {
    var t := Apply(ps, m, a);
    assert t.last == m.last && t.pc.i == 0;
  }

  // ---- a death with COMMITTING stored ----

  predicate OnTheWayOut(st: Status) { st.Committing? || st.Aborting? || st.Aborted? }

  /** Nothing that is stored, remembered or under way can become a commit. */
  ghost predicate Doomed(s: State) {
    && s.doc.Some? && OnTheWayOut(s.doc.value.status)
    && (s.mem.Some? ==> OnTheWayOut(s.mem.value.status))
    && (s.pc.Idle? || s.pc.Opening? || s.pc.Notifying?)
  }

  lemma DoomedStep(ps: seq<Participant>, s: State, a: Action)
    requires Doomed(s) && Enabled(ps, s, a) && !a.PrepareStart?
    ensures var t := Apply(ps, s, a);
            Doomed(t) && t.passes == s.passes && t.commits == s.commits && t.rounds == s.rounds
  {
  }

  lemma {:induction false} DoomedRun(ps: seq<Participant>, s: State, acts: seq<Action>, s': State, rule: Rule)
    requires Doomed(s) && Run(ps, s, acts, s', rule) && NoPrepare(acts)
    ensures Doomed(s') && s'.passes == s.passes && s'.commits == s.commits
    decreases |acts|
  {
    if acts != [] {
      DoomedStep(ps, s, acts[0]);
      DoomedRun(ps, Apply(ps, s, acts[0]), acts[1..], s', rule);
    }
  }

  /** Once the process has died with COMMITTING stored, be it after every participant has committed, no run
      without a new `prepare` stores COMMITTED or delivers another commit, whatever persists and loads
      fail: recovery can only abort. */
  lemma {:induction false} DeathWhileCommitting(
    ps: seq<Participant>, m: State, acts: seq<Action>, s': State, rule: Rule)
    requires Stored(m, Committing) && Run(ps, Apply(ps, m, Restart), acts, s', rule) && NoPrepare(acts)
    ensures s'.doc.Some? && OnTheWayOut(s'.doc.value.status) && !Stored(s', Committed)
    ensures s'.commits == m.commits && s'.passes == m.passes
  {
    DoomedRun(ps, Apply(ps, m, Restart), acts, s', rule);
  }

  /** For instance: the only participant commits, the process dies before COMMITTED is stored, and the
      recovered coordinator tells it to abort. */
  lemma CommittedThenAborted(s: State) returns (acts: seq<Action>, t: State)
    requires Init(SOLO, s)
    ensures Run(SOLO, s, acts, t, AllLand)
    ensures t.commits == [Delivery(0, 0)] && Stored(t, Aborted) && t.last == [Some(AbortCall)]
  {
    acts, t := ToPrepared(SOLO, s, AllLand);
    Extend(SOLO, s, acts, t, CommitStart(true, true), AllLand);
    acts, t := acts + [CommitStart(true, true)], Apply(SOLO, t, CommitStart(true, true));
    Extend(SOLO, s, acts, t, CommitOne(true), AllLand);
    acts, t := acts + [CommitOne(true)], Apply(SOLO, t, CommitOne(true));
    assert t.commits == [Delivery(0, 0)];
    Extend(SOLO, s, acts, t, Restart, AllLand);
    acts, t := acts + [Restart], Apply(SOLO, t, Restart);
    Extend(SOLO, s, acts, t, AbortStart(true), AllLand);
    acts, t := acts + [AbortStart(true)], Apply(SOLO, t, AbortStart(true));
    acts, t := ToAborted(SOLO, s, acts, t, AllLand);
  }
}
