/** What every run of the coordinator keeps. */
module CoordinatorSafety {
  import opened Wrappers
  import opened Enums
  import opened CoordinatorModel

  // ---- shape of documents ----

  ghost predicate Sized(ps: seq<Participant>, t: Tx) { |t.parts| == |ps| }

  predicate InFlight(s: State) { !s.pc.Idle? }

  ghost predicate Shape(ps: seq<Participant>, s: State) {
    && ps != [] && |s.last| == |ps|
    && (s.doc.Some? ==> Sized(ps, s.doc.value))
    && (s.mem.Some? ==> Sized(ps, s.mem.value))
    && (InFlight(s) ==> Sized(ps, s.pc.work))
    && (s.pc.Voting? ==> s.rounds != [] && s.pc.i <= |ps|)
    && (s.pc.Passing? || s.pc.Notifying? ==> s.pc.i <= |ps|)
    && (s.pc.Refused? ==> s.pc.i < |ps|)
  }

  lemma ShapeStep(ps: seq<Participant>, s: State, a: Action)
    requires Shape(ps, s) && Enabled(ps, s, a)
    ensures Shape(ps, Apply(ps, s, a))
  {
  }

  // ---- terminal agreement ----

  /** The stored verdict is the last thing every participant that can hear it was told. */
  ghost predicate Agreement(ps: seq<Participant>, s: State)
    requires |s.last| == |ps|
  {
    && (Stored(s, Committed) ==> ToldCommit(ps, s.last, |ps|))
    && (Stored(s, Aborted) ==> ToldAbort(ps, s.last, |ps|))
  }

  ghost predicate ToldCommit(ps: seq<Participant>, last: seq<Option<Callback>>, n: nat)
    requires n <= |ps| == |last|
  {
    forall i :: 0 <= i < n && ps[i].commits ==> last[i] == Some(CommitCall)
  }

  ghost predicate ToldAbort(ps: seq<Participant>, last: seq<Option<Callback>>, n: nat)
    requires n <= |ps| == |last|
  {
    forall i :: 0 <= i < n && ps[i].aborts ==> last[i] == Some(AbortCall)
  }

  ghost predicate Agreeing(ps: seq<Participant>, s: State) {
    && Shape(ps, s)
    && Agreement(ps, s)
    && (s.pc.Passing? ==> !Stored(s, Aborted) && ToldCommit(ps, s.last, s.pc.i))
    && (s.pc.Notifying? ==> !Stored(s, Committed) && ToldAbort(ps, s.last, s.pc.i))
  }

  lemma AgreeingStep(ps: seq<Participant>, s: State, a: Action)
    requires Agreeing(ps, s) && Enabled(ps, s, a) && Obeys(s, a, OpenersLand)
    requires Unsettled(s)
    ensures Agreeing(ps, Apply(ps, s, a))
  {
    ShapeStep(ps, s, a);
    var t := Apply(ps, s, a);
    if a.CommitOne? || a.NotifyOne? {
      AgreeingCall(ps, s, a);
    } else {
      assert t.last == s.last;
    }
  }

  lemma AgreeingCall(ps: seq<Participant>, s: State, a: Action)
    requires Agreeing(ps, s) && Enabled(ps, s, a) && (a.CommitOne? || a.NotifyOne?)
    ensures Shape(ps, Apply(ps, s, a)) ==> Agreeing(ps, Apply(ps, s, a))
  {
  }

  /** No work in flight carries a terminal status, so no persist inside a pass stores one early. */
  ghost predicate Unsettled(s: State) {
    && (InFlight(s) ==> !Terminal(s.pc.work.status))
    && (s.pc.Voting? || s.pc.Refused? ==> s.pc.work.status.Preparing?)
    && (s.pc.Passing? ==> s.pc.work.status.Committing?)
    && (s.pc.Notifying? ==> s.pc.work.status.Aborting?)
  }

  lemma UnsettledStep(ps: seq<Participant>, s: State, a: Action)
    requires Unsettled(s) && Enabled(ps, s, a)
    ensures Unsettled(Apply(ps, s, a))
  {
  }

  lemma {:induction false} AgreementRun(ps: seq<Participant>, s: State, acts: seq<Action>, s': State)
    requires Agreeing(ps, s) && Unsettled(s) && Run(ps, s, acts, s', OpenersLand)
    ensures Agreeing(ps, s')
    decreases |acts|
  {
    if acts != [] {
      AgreeingStep(ps, s, acts[0]);
      UnsettledStep(ps, s, acts[0]);
      AgreementRun(ps, Apply(ps, s, acts[0]), acts[1..], s');
    }
  }

  /** Main result. Over any run of prepare, commit, abort, crash and recover, including commits that fail
      half-way: whenever the stored status is COMMITTED or ABORTED, the last phase-two callback every
      participant able to receive it was given is the matching one. */
  lemma TerminalAgreement(ps: seq<Participant>, s: State, acts: seq<Action>, s': State)
    requires Init(ps, s) && Run(ps, s, acts, s', OpenersLand)
    ensures |s'.last| == |ps|
    ensures Stored(s', Committed) ==>
              forall i :: 0 <= i < |ps| && ps[i].commits ==> s'.last[i] == Some(CommitCall)
    ensures Stored(s', Aborted) ==>
              forall i :: 0 <= i < |ps| && ps[i].aborts ==> s'.last[i] == Some(AbortCall)
  {
    AgreementRun(ps, s, acts, s');
  }

  // ---- every commit pass is earned and spent once ----

  /** Round r polled every participant and all were in favour. */
  ghost predicate Unanimous(ps: seq<Participant>, rounds: seq<seq<Answer>>, r: nat) {
    r < |rounds| && |rounds[r]| == |ps| && Favourable(rounds[r])
  }

  ghost predicate Favourable(answers: seq<Answer>) {
    forall i :: 0 <= i < |answers| ==> InFavour(answers[i])
  }

  ghost predicate Unspent(s: State, r: nat) { forall k :: 0 <= k < |s.passes| ==> s.passes[k] < r }

  ghost predicate Earned(ps: seq<Participant>, s: State, t: Tx) {
    t.status.Prepared? ==> Unanimous(ps, s.rounds, t.round) && Unspent(s, t.round)
  }

  ghost predicate Increasing(xs: seq<nat>) { forall i, j :: 0 <= i < j < |xs| ==> xs[i] < xs[j] }

  ghost predicate PassesEarned(ps: seq<Participant>, s: State) {
    && Increasing(s.passes)
    && (forall k :: 0 <= k < |s.passes| ==> Unanimous(ps, s.rounds, s.passes[k]))
    && (s.doc.Some? ==> Earned(ps, s, s.doc.value))
    && (s.mem.Some? ==> Earned(ps, s, s.mem.value))
    && (s.pc.Voting? ==>
          && |s.rounds| > 0 && s.pc.work.round == |s.rounds| - 1
          && |s.rounds[|s.rounds| - 1]| == s.pc.i
          && Favourable(s.rounds[|s.rounds| - 1])
          && Unspent(s, |s.rounds| - 1))
  }

  lemma EarnedAsk(ps: seq<Participant>, s: State, answer: Answer)
    requires Shape(ps, s) && PassesEarned(ps, s) && Enabled(ps, s, Ask(answer))
    ensures PassesEarned(ps, Apply(ps, s, Ask(answer)))
  {
    var t := Apply(ps, s, Ask(answer));
    var r := |s.rounds| - 1;
    forall k | 0 <= k < |s.passes| ensures Unanimous(ps, t.rounds, s.passes[k]) {
      assert s.passes[k] < r;
    }
    // a document of the running round is not PREPARED yet: the round has fewer answers than participants
    assert !Unanimous(ps, s.rounds, r);
    assert forall q: nat :: q != r && Unanimous(ps, s.rounds, q) ==> Unanimous(ps, t.rounds, q);
  }

  lemma EarnedPrepare(ps: seq<Participant>, s: State, loads: bool, lands: bool)
    requires PassesEarned(ps, s) && s.pc.Idle?
    ensures PassesEarned(ps, PrepareFrom(ps, s, loads, lands))
  {
    var t := PrepareFrom(ps, s, loads, lands);
    assert forall q: nat :: Unanimous(ps, s.rounds, q) ==> Unanimous(ps, t.rounds, q);
    assert forall k :: 0 <= k < |s.passes| ==> Unanimous(ps, s.rounds, s.passes[k]);
  }

  lemma EarnedCommit(ps: seq<Participant>, s: State, a: Action)
    requires PassesEarned(ps, s) && Enabled(ps, s, a) && Obeys(s, a, OpenersLand) && a.CommitStart?
    ensures PassesEarned(ps, Apply(ps, s, a))
  {
  }

  /** The steps that begin no round, hear no answer and start no pass. */
  lemma EarnedQuiet(ps: seq<Participant>, s: State, a: Action)
    requires Shape(ps, s) && Unsettled(s) && PassesEarned(ps, s)
    requires Enabled(ps, s, a) && Obeys(s, a, OpenersLand) && !a.Ask? && !a.PrepareStart? && !a.CommitStart?
    ensures PassesEarned(ps, Apply(ps, s, a))
  {
    assert Apply(ps, s, a).rounds == s.rounds && Apply(ps, s, a).passes == s.passes;
  }

  lemma {:induction false} EarnedStep(ps: seq<Participant>, s: State, a: Action)
    requires Shape(ps, s) && Unsettled(s) && PassesEarned(ps, s)
    requires Enabled(ps, s, a) && Obeys(s, a, OpenersLand)
    ensures PassesEarned(ps, Apply(ps, s, a))
  {
    if a.Ask? {
      EarnedAsk(ps, s, a.answer);
    } else if a.PrepareStart? {
      EarnedPrepare(ps, s, a.loads, a.lands);
    } else if a.CommitStart? {
      EarnedCommit(ps, s, a);
    } else {
      EarnedQuiet(ps, s, a);
    }
  }

  // ---- each participant hears a pass's commit at most once ----

  ghost predicate NoRepeat(s: State) {
    forall i, j :: 0 <= i < j < |s.commits| ==> s.commits[i] != s.commits[j]
  }

  ghost predicate CommitsBelong(s: State) {
    && (forall k :: 0 <= k < |s.commits| ==> s.commits[k].round in s.passes)
    && NoRepeat(s)
    && (s.pc.Passing? ==>
          && s.pc.work.round in s.passes
          && forall k :: 0 <= k < |s.commits| && s.commits[k].round == s.pc.work.round
                         ==> s.commits[k].participant < s.pc.i)
  }

  lemma CommitsStep(ps: seq<Participant>, s: State, a: Action)
    requires Shape(ps, s) && PassesEarned(ps, s) && CommitsBelong(s) && Enabled(ps, s, a)
    ensures CommitsBelong(Apply(ps, s, a))
  {
    if a.CommitStart? {
      CommitsStart(ps, s, a);
    } else if a.CommitOne? {
      CommitsOne(ps, s, a);
    } else {
      var t := Apply(ps, s, a);
      assert t.passes == s.passes && t.commits == s.commits && !t.pc.Passing?;
    }
  }

  lemma CommitsStart(ps: seq<Participant>, s: State, a: Action)
    requires PassesEarned(ps, s) && CommitsBelong(s) && Enabled(ps, s, a) && a.CommitStart?
    ensures CommitsBelong(Apply(ps, s, a))
  {
    var r := Current(ps, s, a.loads).round;
    assert Unspent(s, r);
    assert r !in s.passes;
    assert (s.passes + [r])[|s.passes|] == r;
  }

  lemma CommitsOne(ps: seq<Participant>, s: State, a: Action)
    requires CommitsBelong(s) && Enabled(ps, s, a) && a.CommitOne?
    ensures CommitsBelong(Apply(ps, s, a))
  {
    assert Apply(ps, s, a).passes == s.passes;
  }

  lemma {:induction false} EarnedRun(ps: seq<Participant>, s: State, acts: seq<Action>, s': State)
    requires Shape(ps, s) && Unsettled(s) && PassesEarned(ps, s) && CommitsBelong(s)
    requires Run(ps, s, acts, s', OpenersLand)
    ensures PassesEarned(ps, s') && CommitsBelong(s')
    decreases |acts|
  {
    if acts != [] {
      ShapeStep(ps, s, acts[0]);
      UnsettledStep(ps, s, acts[0]);
      EarnedStep(ps, s, acts[0]);
      CommitsStep(ps, s, acts[0]);
      EarnedRun(ps, Apply(ps, s, acts[0]), acts[1..], s');
    }
  }

  /** Main result. Every commit callback of every run belongs to a pass; every pass rests on a round in
      which each participant was polled and none answered NO, timed out or raised; the rounds of successive
      passes strictly increase, so no round is spent twice; and within a pass no participant is told twice. */
  lemma EarnedAndSpentOnce(ps: seq<Participant>, s: State, acts: seq<Action>, s': State)
    requires Init(ps, s) && Run(ps, s, acts, s', OpenersLand)
    ensures forall k :: 0 <= k < |s'.commits| ==> s'.commits[k].round in s'.passes
    ensures forall k :: 0 <= k < |s'.passes| ==> Unanimous(ps, s'.rounds, s'.passes[k])
    ensures forall i, j :: 0 <= i < j < |s'.passes| ==> s'.passes[i] < s'.passes[j]
    ensures forall i, j :: 0 <= i < j < |s'.commits| ==> s'.commits[i] != s'.commits[j]
  {
    EarnedRun(ps, s, acts, s');
  }
}
