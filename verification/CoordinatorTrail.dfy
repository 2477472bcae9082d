/** The statuses a transaction document goes through, the shape of its votes, and runs that show what
    the assumptions are needed for. */
module CoordinatorTrail {
  import opened Wrappers
  import opened Text
  import opened Enums
  import opened CoordinatorModel
  import opened CoordinatorSafety

  // ---- the status trail ----

  /** The statuses that may be stored over a given one. */
  predicate Follows(before: Option<Status>, next: Status) {
    match next
    case Initiated => false
    case Preparing => true
    case Prepared => before == Some(Preparing)
    case Committing => before == Some(Prepared)
    case Committed => before == Some(Committing)
    case Aborting => before != Some(Committed) && before != Some(Aborted)
    case Aborted => before == Some(Aborting)
  }

  function StatusOf(t: Option<Tx>): Option<Status> {
    if t.Some? then Some(t.value.status) else None
  }

  /** With a store that works, what the coordinator remembers is what is stored. */
  ghost predicate InStep(s: State) {
    && (s.pc.Idle? ==> s.mem.None? || s.mem == s.doc)
    && (s.pc.Voting? || s.pc.Refused? ==> StatusOf(s.doc) == Some(Preparing))
    && (s.pc.Passing? ==> StatusOf(s.doc) == Some(Committing))
    && (s.pc.Notifying? ==> StatusOf(s.doc) == Some(Aborting))
    && (s.pc.Opening? ==> (s.doc.None? && s.pc.work.status.Initiated?)
                          || StatusOf(s.doc) == Some(s.pc.work.status))
    && (s.pc.Voting? || s.pc.Refused? ==> s.mem == s.doc)
    && (s.doc.Some? ==> !s.doc.value.status.Initiated?)
  }

  lemma InStepStep(ps: seq<Participant>, s: State, a: Action)
    requires InStep(s) && Unsettled(s) && Enabled(ps, s, a) && Obeys(s, a, AllLand)
    ensures InStep(Apply(ps, s, a))
    ensures Apply(ps, s, a).doc == s.doc || Follows(StatusOf(s.doc), Apply(ps, s, a).doc.value.status)
  {
  }

  lemma {:induction false} InStepRun(ps: seq<Participant>, s: State, acts: seq<Action>, s': State)
    requires InStep(s) && Unsettled(s) && Run(ps, s, acts, s', AllLand)
    ensures InStep(s') && Unsettled(s')
    decreases |acts|
  {
    if acts != [] {
      InStepStep(ps, s, acts[0]);
      UnsettledStep(ps, s, acts[0]);
      InStepRun(ps, Apply(ps, s, acts[0]), acts[1..], s');
    }
  }

  /** In every run with a working store each new stored status follows the previous one in the
      relation above; in particular only `prepare` leaves COMMITTED or ABORTED. */
  lemma StatusTrail(ps: seq<Participant>, s: State, acts: seq<Action>, s': State, a: Action)
    requires Init(ps, s) && Run(ps, s, acts, s', AllLand)
    requires Enabled(ps, s', a) && Obeys(s', a, AllLand)
    ensures Apply(ps, s', a).doc == s'.doc
            || Follows(StatusOf(s'.doc), Apply(ps, s', a).doc.value.status)
    ensures s'.doc.Some? && Terminal(s'.doc.value.status) && Apply(ps, s', a).doc != s'.doc ==> a.PrepareStart?
  {
    InStepRun(ps, s, acts, s');
    InStepStep(ps, s', a);
  }

  /** The process may die at any point. The document and what the participants have heard stay as they are; the
      next coordinator knows only the document. */
  lemma DeathAnywhere(ps: seq<Participant>, s: State)
    ensures Enabled(ps, s, Restart)
    ensures var t := Apply(ps, s, Restart);
            && t.doc == s.doc && t.last == s.last && t.rounds == s.rounds && t.passes == s.passes
            && t.mem.None? && t.pc.Idle?
  {
  }

  ghost predicate NoPrepare(acts: seq<Action>) { forall a :: a in acts ==> !a.PrepareStart? }

  ghost predicate Resting(s: State, t: Tx) {
    s.doc == Some(t) && Terminal(t.status) && s.pc.Idle? && (s.mem.None? || s.mem == s.doc)
  }

  /** Terminal states absorb: once a verdict is stored, no run without a new `prepare` changes the
      document or calls any participant. */
  lemma {:induction false} VerdictAbsorbs(
    ps: seq<Participant>, s: State, t: Tx, acts: seq<Action>, s': State)
    requires Resting(s, t) && Run(ps, s, acts, s', AllLand) && NoPrepare(acts)
    ensures Resting(s', t) && s'.last == s.last && s'.passes == s.passes && s'.commits == s.commits
    decreases |acts|
  {
    if acts != [] {
      VerdictAbsorbs(ps, Apply(ps, s, acts[0]), t, acts[1..], s');
    }
  }

  /** A verdict is stored only with the coordinator at rest. */
  lemma VerdictRests(ps: seq<Participant>, s: State, acts: seq<Action>, s': State)
    requires Init(ps, s) && Run(ps, s, acts, s', AllLand)
    requires s'.doc.Some? && Terminal(s'.doc.value.status)
    ensures Resting(s', s'.doc.value)
  {
    InStepRun(ps, s, acts, s');
  }

  // ---- the votes in the document ----

  predicate Favours(p: PartState) { p.vote == Some(Yes) && p.phase1 }

  ghost predicate AllFavour(parts: seq<PartState>, n: nat)
    requires n <= |parts|
  {
    forall i :: 0 <= i < n ==> Favours(parts[i])
  }

  /** An answered prefix of YES votes, one NO at n if it was a NO, and the loaded entries after that. */
  ghost predicate VotePrefix(parts: seq<PartState>, base: seq<PartState>, n: nat, no: bool) {
    && |parts| == |base| && n <= |parts|
    && AllFavour(parts, n)
    && (no ==> n < |parts| && parts[n].vote == Some(No) && parts[n].phase1)
    && (forall i :: (if no then n + 1 else n) <= i < |parts| ==> parts[i] == base[i])
    && (forall i :: 0 <= i < |parts| ==> parts[i].id == base[i].id && parts[i].phase2 == base[i].phase2)
  }

  ghost predicate Settled(t: Tx) {
    && (t.status.Prepared? || t.status.Committing? || t.status.Committed? ==> AllFavour(t.parts, |t.parts|))
    && (t.status.Committed? ==> forall i :: 0 <= i < |t.parts| ==> t.parts[i].phase2)
  }

  ghost predicate VoteShape(s: State) {
    && (s.doc.Some? ==> Settled(s.doc.value))
    && (s.mem.Some? ==> Settled(s.mem.value))
    && (InFlight(s) ==> Settled(s.pc.work))
    && (s.pc.Voting? ==> VotePrefix(s.pc.work.parts, s.pc.base, s.pc.i, false))
    && (s.pc.Refused? ==> VotePrefix(s.pc.work.parts, s.pc.base, s.pc.i, s.pc.byNo))
  }

  lemma VoteShapeAsk(ps: seq<Participant>, s: State, answer: Answer)
    requires Shape(ps, s) && Unsettled(s) && VoteShape(s) && Enabled(ps, s, Ask(answer))
    ensures VoteShape(Apply(ps, s, Ask(answer)))
  {
  }

  lemma VoteShapeStep(ps: seq<Participant>, s: State, a: Action)
    requires Shape(ps, s) && Unsettled(s) && VoteShape(s) && Enabled(ps, s, a)
    ensures VoteShape(Apply(ps, s, a))
  {
    if a.Ask? { VoteShapeAsk(ps, s, a.answer); }
  }

  lemma {:induction false} VoteShapeRun(
    ps: seq<Participant>, s: State, acts: seq<Action>, s': State, rule: Rule)
    requires Shape(ps, s) && Unsettled(s) && VoteShape(s) && Run(ps, s, acts, s', rule)
    ensures Shape(ps, s') && Unsettled(s') && VoteShape(s')
    decreases |acts|
  {
    if acts != [] {
      ShapeStep(ps, s, acts[0]);
      UnsettledStep(ps, s, acts[0]);
      VoteShapeStep(ps, s, acts[0]);
      VoteShapeRun(ps, Apply(ps, s, acts[0]), acts[1..], s', rule);
    }
  }

  /** One entry for each participant, under its name. */
  ghost predicate Named(ps: seq<Participant>, parts: seq<PartState>) {
    |parts| == |ps| && forall i :: 0 <= i < |ps| ==> parts[i].id == ps[i].id
  }

  ghost predicate NamesKept(ps: seq<Participant>, s: State) {
    && (s.doc.Some? ==> Named(ps, s.doc.value.parts))
    && (s.mem.Some? ==> Named(ps, s.mem.value.parts))
    && (InFlight(s) ==> Named(ps, s.pc.work.parts))
  }

  lemma NamesStep(ps: seq<Participant>, s: State, a: Action)
    requires Shape(ps, s) && NamesKept(ps, s) && Enabled(ps, s, a)
    ensures NamesKept(ps, Apply(ps, s, a))
  {
    if a.VotesDone? || a.CommitDone? {
      NamesDone(ps, s, a);
    } else {
      assert Named(ps, InitialParts(ps));
    }
  }

  lemma NamesDone(ps: seq<Participant>, s: State, a: Action)
    requires Shape(ps, s) && NamesKept(ps, s) && Enabled(ps, s, a) && (a.VotesDone? || a.CommitDone?)
    ensures NamesKept(ps, Apply(ps, s, a))
  {
    assert s.pc.work.parts[..s.pc.i] == s.pc.work.parts;
  }

  lemma {:induction false} NamesRun(ps: seq<Participant>, s: State, acts: seq<Action>, s': State, rule: Rule)
    requires Shape(ps, s) && NamesKept(ps, s) && Run(ps, s, acts, s', rule)
    ensures NamesKept(ps, s')
    decreases |acts|
  {
    if acts != [] {
      ShapeStep(ps, s, acts[0]);
      NamesStep(ps, s, acts[0]);
      NamesRun(ps, Apply(ps, s, acts[0]), acts[1..], s', rule);
    }
  }

  /** What the steps of one `prepare` do to its document. `base` is the entries it loaded, or blank ones: */
  ghost predicate RoundKeepsBase(ps: seq<Participant>, s: State, a: Action)
    requires Enabled(ps, s, a)
  {
    var t := Apply(ps, s, a);
    && (a.PrepareStart? ==>
          && t.pc == Voting(0, Reread(ps, s, a.loads).(status := Preparing, round := |s.rounds|),
                            Reread(ps, s, a.loads).parts)
          && (a.lands ==> t.doc == Some(t.pc.work))
          && (a.loads && s.doc.Some? ==> t.pc.base == s.doc.value.parts)
          && (!a.loads || s.doc.None? ==>
                t.pc.base == seq(|ps|, i requires 0 <= i < |ps| => PartState(ps[i].id, None, false, false))))
    && (a.Ask? && (t.pc.Voting? || t.pc.Refused?) ==> t.pc.base == s.pc.base)
    // on a refusal: the YES votes, the NO if there is one, and the rest as loaded
    && (a.SaveRefusal? ==>
          && VotePrefix(s.pc.work.parts, s.pc.base, s.pc.i, s.pc.byNo)
          && (a.lands ==> t.doc == Some(s.pc.work)))
    // on a unanimous round: a YES from everyone, with names and second phases as loaded
    && (a.VotesDone? ==>
          && VotePrefix(s.pc.work.parts, s.pc.base, |ps|, false)
          && (a.lands ==> t.doc == Some(s.pc.work.(status := Prepared))))
  }

  /** Whatever persists fail: `prepare` starts from the entries it loads, and at each document it writes the
      list keeps its length, names and second phases and is a prefix of YES votes, the refusing NO if there
      is one, then the entries as they were loaded; a document that says PREPARED, COMMITTING or COMMITTED
      has a YES with phase 1 complete from everyone, and COMMITTED has phase 2 complete too. Every document
      names the participants, in order. */
  lemma {:induction false} VotesAreAPrefix(
    ps: seq<Participant>, s: State, acts: seq<Action>, s': State, a: Action, rule: Rule)
    requires Init(ps, s) && Run(ps, s, acts, s', rule) && Enabled(ps, s', a)
    ensures s'.doc.Some? ==> |s'.doc.value.parts| == |ps| && Settled(s'.doc.value)
    ensures s'.doc.Some? ==> forall i :: 0 <= i < |ps| ==> s'.doc.value.parts[i].id == ps[i].id
    ensures RoundKeepsBase(ps, s', a)
  {
    VoteShapeRun(ps, s, acts, s', rule);
    NamesRun(ps, s, acts, s', rule);
    if a.VotesDone? {
      assert s'.pc.work.parts[..s'.pc.i] == s'.pc.work.parts;
    }
  }

  // ---- what the assumptions are needed for ----

  lemma {:induction false} Extend(
    ps: seq<Participant>, s: State, acts: seq<Action>, m: State, a: Action, rule: Rule)
    requires Run(ps, s, acts, m, rule) && Enabled(ps, m, a) && Obeys(m, a, rule)
    ensures Run(ps, s, acts + [a], Apply(ps, m, a), rule)
    decreases |acts|
  {
    if acts == [] {
      assert ([a])[1..] == [];
    } else {
      Extend(ps, Apply(ps, s, acts[0]), acts[1..], m, a, rule);
      assert (acts + [a])[1..] == acts[1..] + [a];
    }
  }

  const SOLO := [Participant("p0", true, true, true)]
  const NO_UNDO := [Participant("p0", true, true, false)]

  /** A lone participant says yes: PREPARED of round 0. */
  lemma ToPrepared(ps: seq<Participant>, s: State, rule: Rule) returns (acts: seq<Action>, t: State)
    requires Init(ps, s) && |ps| == 1 && ps[0].votes
    ensures Run(ps, s, acts, t, rule) && t.pc.Idle? && t.passes == [] && t.last == [None] && t.mem == t.doc
    ensures t.commits == []
    ensures t.doc.Some? && t.doc.value.status.Prepared? && t.doc.value.round == 0 && |t.doc.value.parts| == 1
  {
    acts, t := [], s;
    Extend(ps, s, acts, t, PrepareStart(true, true), rule);
    acts, t := acts + [PrepareStart(true, true)], Apply(ps, t, PrepareStart(true, true));
    Extend(ps, s, acts, t, Ask(Said("yes")), rule);
    assert Upper("yes")[0] == 'Y';
    acts, t := acts + [Ask(Said("yes"))], Apply(ps, t, Ask(Said("yes")));
    Extend(ps, s, acts, t, VotesDone(true), rule);
    acts, t := acts + [VotesDone(true)], Apply(ps, t, VotesDone(true));
  }

  /** If the persist that opens a commit pass is lost and the process dies, one round is spent twice. */
  lemma LostCommittingSpendsTwice(s: State) returns (acts: seq<Action>, t: State)
    requires Init(SOLO, s)
    ensures Run(SOLO, s, acts, t, AnyPersist) && t.passes == [0, 0]
  {
    acts, t := ToPrepared(SOLO, s, AnyPersist);
    Extend(SOLO, s, acts, t, CommitStart(true, false), AnyPersist);
    acts, t := acts + [CommitStart(true, false)], Apply(SOLO, t, CommitStart(true, false));
    Extend(SOLO, s, acts, t, Restart, AnyPersist);
    acts, t := acts + [Restart], Apply(SOLO, t, Restart);
    Extend(SOLO, s, acts, t, CommitStart(true, true), AnyPersist);
    acts, t := acts + [CommitStart(true, true)], Apply(SOLO, t, CommitStart(true, true));
  }

  /** A remembered PREPARED comes from no earlier a round than a stored one. */
  ghost predicate RoundOrder(s: State) {
    && (Stored(s, Prepared) ==> s.doc.value.round < |s.rounds|)
    && (s.pc.Voting? ==> |s.rounds| > 0 && s.pc.work.round == |s.rounds| - 1)
    && (s.mem.Some? && s.mem.value.status.Prepared? && Stored(s, Prepared) ==>
          s.doc.value.round <= s.mem.value.round)
  }

  /** Whatever persists and loads fail. */
  lemma RoundOrderStep(ps: seq<Participant>, s: State, a: Action)
    requires Unsettled(s) && RoundOrder(s) && Enabled(ps, s, a)
    ensures RoundOrder(Apply(ps, s, a))
  {
  }

  lemma {:induction false} RoundOrderRun(
    ps: seq<Participant>, s: State, acts: seq<Action>, s': State, rule: Rule)
    requires Unsettled(s) && RoundOrder(s) && Run(ps, s, acts, s', rule)
    ensures Unsettled(s') && RoundOrder(s')
    decreases |acts|
  {
    if acts != [] {
      UnsettledStep(ps, s, acts[0]);
      RoundOrderStep(ps, s, acts[0]);
      RoundOrderRun(ps, Apply(ps, s, acts[0]), acts[1..], s', rule);
    }
  }

  /** Exactly when starting a pass leaves every pass earned and unspent: COMMITTING is stored, or no
      PREPARED is. */
  lemma CommitStartEarns(ps: seq<Participant>, s: State, a: Action)
    requires Shape(ps, s) && PassesEarned(ps, s) && RoundOrder(s) && Enabled(ps, s, a) && a.CommitStart?
    ensures PassesEarned(ps, Apply(ps, s, a)) <==> a.lands || !Stored(s, Prepared)
  {
    var t := Apply(ps, s, a);
    var r := Current(ps, s, a.loads).round;
    assert t.passes == s.passes + [r] && t.passes[|s.passes|] == r;
    if !a.lands && Stored(s, Prepared) {
      assert s.doc.value.round <= r;
      assert !Unspent(t, s.doc.value.round);
    } else {
      assert Unspent(s, r);
    }
  }

  /** Some continuation, in which every persist that opens a pass lands, spends one round twice. */
  ghost predicate CanSpendTwice(ps: seq<Participant>, s: State) {
    exists acts: seq<Action>, t: State :: Run(ps, s, acts, t, OpenersLand) && !CoordinatorSafety.Increasing(t.passes)
  }

  /** Exactly when a commit pass can make its round be spent twice: the persist of COMMITTING is lost over a
      stored PREPARED. */
  lemma {:induction false} SpentTwice(
    ps: seq<Participant>, s: State, acts: seq<Action>, m: State, a: Action)
    requires Init(ps, s) && Run(ps, s, acts, m, OpenersLand) && Enabled(ps, m, a) && a.CommitStart?
    ensures CanSpendTwice(ps, Apply(ps, m, a)) <==> !a.lands && Stored(m, Prepared)
  {
    EarnedRun(ps, s, acts, m);
    InvariantsRun(ps, s, acts, m);
    CommitStartEarns(ps, m, a);
    var t := Apply(ps, m, a);
    if !a.lands && Stored(m, Prepared) {
      SpendsAgain(ps, m, a);
    } else {
      ShapeStep(ps, m, a);
      UnsettledStep(ps, m, a);
      CommitsStep(ps, m, a);
      forall more, t' | Run(ps, t, more, t', OpenersLand) ensures CoordinatorSafety.Increasing(t'.passes) {
        EarnedRun(ps, t, more, t');
      }
    }
  }

  lemma {:induction false} InvariantsRun(ps: seq<Participant>, s: State, acts: seq<Action>, m: State)
    requires Init(ps, s) && Run(ps, s, acts, m, OpenersLand)
    ensures Shape(ps, m) && Unsettled(m) && RoundOrder(m)
  {
    VoteShapeRun(ps, s, acts, m, OpenersLand);
    RoundOrderRun(ps, s, acts, m, OpenersLand);
  }

  /** The process dies and a new coordinator commits from the PREPARED that is still stored. */
  lemma SpendsAgain(ps: seq<Participant>, m: State, a: Action)
    requires Shape(ps, m) && RoundOrder(m) && Enabled(ps, m, a) && a.CommitStart? && !a.lands && Stored(m, Prepared)
    ensures CanSpendTwice(ps, Apply(ps, m, a))
  {
    var t := Apply(ps, m, a);
    var t1 := Apply(ps, t, Restart);
    var again := CommitStart(true, true);
    var t2 := Apply(ps, t1, again);
    assert Run(ps, t2, [], t2, OpenersLand);
    assert [again][1..] == [];
    assert Run(ps, t1, [again], t2, OpenersLand);
    assert [Restart, again][1..] == [again];
    assert Run(ps, t, [Restart, again], t2, OpenersLand);
    var n := |m.passes|;
    assert t2.passes[n] >= m.doc.value.round == t2.passes[n + 1];
    assert !CoordinatorSafety.Increasing(t2.passes);
  }

  /** A commit that fails at its only participant. */
  lemma ToFailedCommit(ps: seq<Participant>, s: State) returns (acts: seq<Action>, t: State)
    requires Init(ps, s) && |ps| == 1 && ps[0].votes && ps[0].commits
    ensures Run(ps, s, acts, t, AllLand) && t.pc.Opening? && t.last == [Some(CommitCall)]
    ensures |t.pc.work.parts| == 1
  {
    acts, t := ToPrepared(ps, s, AllLand);
    Extend(ps, s, acts, t, CommitStart(true, true), AllLand);
    acts, t := acts + [CommitStart(true, true)], Apply(ps, t, CommitStart(true, true));
    Extend(ps, s, acts, t, CommitOne(false), AllLand);
    acts, t := acts + [CommitOne(false)], Apply(ps, t, CommitOne(false));
  }

  lemma ToAborted(ps: seq<Participant>, s: State, before: seq<Action>, m: State, rule: Rule)
    returns (acts: seq<Action>, t: State)
    requires Run(ps, s, before, m, rule) && |ps| == 1 && m.pc.Opening? && |m.last| == 1
    ensures Run(ps, s, acts, t, rule) && t.pc.Idle? && Stored(t, Aborted)
    ensures t.last == if ps[0].aborts then [Some(AbortCall)] else m.last
    ensures t.commits == m.commits
  {
    acts, t := before, m;
    Extend(ps, s, acts, t, OpenAbort(true), rule);
    acts, t := acts + [OpenAbort(true)], Apply(ps, t, OpenAbort(true));
    Extend(ps, s, acts, t, NotifyOne, rule);
    acts, t := acts + [NotifyOne], Apply(ps, t, NotifyOne);
    Extend(ps, s, acts, t, CloseAbort(true), rule);
    acts, t := acts + [CloseAbort(true)], Apply(ps, t, CloseAbort(true));
  }

  /** A participant with a commit callback but no abort callback can end a stored ABORTED with a commit as
      the last thing it heard, even with a working store: agreement is per callback offered. */
  lemma NoAbortCallback(s: State) returns (acts: seq<Action>, t: State)
    requires Init(NO_UNDO, s)
    ensures Run(NO_UNDO, s, acts, t, AllLand)
    ensures Stored(t, Aborted) && t.last == [Some(CommitCall)]
  {
    acts, t := ToFailedCommit(NO_UNDO, s);
    acts, t := ToAborted(NO_UNDO, s, acts, t, AllLand);
  }

  /** With a store that loses every persist after a first ABORTED, a second round can commit its only
      participant while ABORTED is still what is stored. */
  lemma LostPersistsBreakAgreement(s: State) returns (acts: seq<Action>, t: State)
    requires Init(SOLO, s)
    ensures Run(SOLO, s, acts, t, AnyPersist)
    ensures Stored(t, Aborted) && t.last == [Some(CommitCall)]
  {
    Extend(SOLO, s, [], s, AbortStart(true), AnyPersist);
    acts, t := [AbortStart(true)], Apply(SOLO, s, AbortStart(true));
    acts, t := ToAborted(SOLO, s, acts, t, AnyPersist);
    acts, t := LostRound(s, acts, t);
    Extend(SOLO, s, acts, t, CommitStart(true, false), AnyPersist);
    acts, t := acts + [CommitStart(true, false)], Apply(SOLO, t, CommitStart(true, false));
    Extend(SOLO, s, acts, t, CommitOne(true), AnyPersist);
    acts, t := acts + [CommitOne(true)], Apply(SOLO, t, CommitOne(true));
  }

  lemma LostRound(s: State, before: seq<Action>, m: State) returns (acts: seq<Action>, t: State)
    requires Run(SOLO, s, before, m, AnyPersist) && m.pc.Idle? && |m.last| == 1
    ensures Run(SOLO, s, acts, t, AnyPersist) && t.pc.Idle? && t.doc == m.doc && |t.last| == 1
    ensures t.mem.Some? && t.mem.value.status.Prepared? && |t.mem.value.parts| == 1
  {
    acts, t := before, m;
    var p := PrepareStart(false, false);
    Extend(SOLO, s, acts, t, p, AnyPersist);
    acts, t := acts + [p], Apply(SOLO, t, p);
    Extend(SOLO, s, acts, t, Ask(Said("yes")), AnyPersist);
    assert Upper("yes")[0] == 'Y';
    acts, t := acts + [Ask(Said("yes"))], Apply(SOLO, t, Ask(Said("yes")));
    Extend(SOLO, s, acts, t, VotesDone(false), AnyPersist);
    acts, t := acts + [VotesDone(false)], Apply(SOLO, t, VotesDone(false));
  }
}
