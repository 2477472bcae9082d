/** The two-phase-commit coordinator as a step system: one transaction id, one live coordinator object at
    a time, the same participant list on each of them. The stored document survives; the coordinator's
    own copy does not. Every persist and every participant call is its own step, so the process may die
    between any two of them. */
module CoordinatorModel {
  import opened Wrappers
  import opened Enums
  import opened Text

  datatype Vote = Yes | No

  /** A participant object: which of the callbacks it offers. */
  datatype Participant = Participant(id: string, votes: bool, commits: bool, aborts: bool)

  datatype PartState = PartState(id: string, vote: Option<Vote>, phase1: bool, phase2: bool)

  /** The transaction document. `round` is history: the prepare round its votes come from. */
  datatype Tx = Tx(status: Status, parts: seq<PartState>, round: nat)

  datatype Callback = CommitCall | AbortCall

  /** What asking for a vote can come to. */
  datatype Answer = NoMethod | Said(text: string) | TimedOut | Raised

  datatype Delivery = Delivery(participant: nat, round: nat)

  /** Where the coordinator object stands. */
  datatype Pc =
    | Idle
    | Voting(i: nat, work: Tx, base: seq<PartState>)                       // about to ask participant i
    | Refused(i: nat, byNo: bool, work: Tx, base: seq<PartState>)          // votes about to be persisted
    | Opening(work: Tx)                                                    // ABORTING about to be persisted
    | Notifying(i: nat, work: Tx)                                          // about to abort participant i
    | Passing(i: nat, work: Tx)                                            // about to commit participant i

  datatype State = State(
    doc: Option<Tx>,
    mem: Option<Tx>,
    pc: Pc,
    // history
    last: seq<Option<Callback>>,
    rounds: seq<seq<Answer>>,
    passes: seq<nat>,
    commits: seq<Delivery>)

  datatype Action =
    | Restart                               // the process dies; a new coordinator object is built
    | Recover(loads: bool)
    | PrepareStart(loads: bool, lands: bool)
    | Ask(answer: Answer)
    | SaveRefusal(lands: bool)
    | VotesDone(lands: bool)
    | AbortStart(loads: bool)
    | OpenAbort(lands: bool)
    | NotifyOne
    | CloseAbort(lands: bool)
    | CommitStart(loads: bool, lands: bool)
    | CommitOne(ok: bool)
    | CommitDone(lands: bool)

  /** An N and an O, each in either letter case. */
  predicate SpellsNo(text: string) {
    |text| == 2 && (text[0] == 'N' || text[0] == 'n') && (text[1] == 'O' || text[1] == 'o')
  }

  /** Only a NO counts as NO; whatever else is said, and saying nothing, counts as YES. */
  function CallVote(a: Answer): (v: Vote)
    ensures v.No? <==> a.Said? && SpellsNo(a.text)
  {
    if a.Said? && Upper(a.text) == "NO" then No else Yes
  }

  /** The participant was polled and neither refused, timed out nor raised. */
  predicate InFavour(a: Answer) { a.NoMethod? || (a.Said? && !SpellsNo(a.text)) }

  function InitialParts(ps: seq<Participant>): (r: seq<PartState>)
    ensures |r| == |ps|
    ensures forall i :: 0 <= i < |r| ==> r[i].id == ps[i].id && r[i].vote.None? && !r[i].phase1 && !r[i].phase2
  {
    seq(|ps|, i requires 0 <= i < |ps| => PartState(ps[i].id, None, false, false))
  }

  function Bootstrap(ps: seq<Participant>): Tx { Tx(Initiated, InitialParts(ps), 0) }

  /** `self._state or self._load_state(...)`, then the bootstrap state. */
  function Current(ps: seq<Participant>, s: State, loads: bool): Tx {
    if s.mem.Some? then s.mem.value
    else if loads && s.doc.Some? then s.doc.value
    else Bootstrap(ps)
  }

  /** `prepare` reads the stored document whatever the object remembers. */
  function Reread(ps: seq<Participant>, s: State, loads: bool): Tx {
    if loads && s.doc.Some? then s.doc.value else Bootstrap(ps)
  }

  function Persist(s: State, t: Tx, lands: bool): State {
    s.(doc := if lands then Some(t) else s.doc, mem := Some(t))
  }

  predicate Terminal(st: Status) { st.Committed? || st.Aborted? }

  predicate Stored(s: State, st: Status) { s.doc.Some? && s.doc.value.status == st }

  predicate Init(ps: seq<Participant>, s: State) {
    && ps != [] && s.doc == None && s.mem == None && s.pc == Idle
    && |s.last| == |ps| && (forall i :: 0 <= i < |ps| ==> s.last[i] == None)
    && s.rounds == [] && s.passes == [] && s.commits == []
  }

  function Answered(p: PartState, v: Vote): PartState { p.(vote := Some(v), phase1 := true) }

  /** A document for another participant list would make `zip` stop early; i counts zipped pairs. */
  predicate Left(ps: seq<Participant>, i: nat, work: Tx) { i < |ps| && i < |work.parts| }

  predicate Enabled(ps: seq<Participant>, s: State, a: Action) {
    match a
    case Restart => true
    case Recover(_) => s.pc.Idle?
    case PrepareStart(_, _) => s.pc.Idle?
    case Ask(answer) =>
      s.pc.Voting? && Left(ps, s.pc.i, s.pc.work) && (answer.NoMethod? <==> !ps[s.pc.i].votes)
      && s.rounds != []
    case SaveRefusal(_) => s.pc.Refused?
    case VotesDone(_) => s.pc.Voting? && !Left(ps, s.pc.i, s.pc.work) && s.pc.i <= |s.pc.work.parts|
    case AbortStart(_) => s.pc.Idle?
    case OpenAbort(_) => s.pc.Opening?
    case NotifyOne => s.pc.Notifying? && s.pc.i < |ps| && |s.last| == |ps|
    case CloseAbort(_) => s.pc.Notifying? && s.pc.i >= |ps|
    case CommitStart(loads, _) => s.pc.Idle? && Current(ps, s, loads).status.Prepared?
    case CommitOne(ok) =>
      s.pc.Passing? && Left(ps, s.pc.i, s.pc.work) && |s.last| == |ps| && (!ok ==> ps[s.pc.i].commits)
    case CommitDone(_) => s.pc.Passing? && !Left(ps, s.pc.i, s.pc.work) && s.pc.i <= |s.pc.work.parts|
  }

  function PrepareFrom(ps: seq<Participant>, s: State, loads: bool, lands: bool): State {
    var t := Reread(ps, s, loads).(status := Preparing, round := |s.rounds|);
    Persist(s, t, lands).(pc := Voting(0, t, t.parts), rounds := s.rounds + [[]])
  }

  function Hear(ps: seq<Participant>, s: State, answer: Answer): State
    requires Enabled(ps, s, Ask(answer))
  {
    var Voting(i, work, base) := s.pc;
    var r := |s.rounds| - 1;
    var t := s.(rounds := s.rounds[r := s.rounds[r] + [answer]]);
    if answer.Raised? then t.(pc := Idle)
    else if answer.TimedOut? then t.(pc := Refused(i, false, work, base))
    else
      var v := CallVote(answer);
      var work' := work.(parts := work.parts[i := Answered(work.parts[i], v)]);
      if v.Yes? then t.(pc := Voting(i + 1, work', base)) else t.(pc := Refused(i, true, work', base))
  }

  function CommitFrom(ps: seq<Participant>, s: State, loads: bool, lands: bool): State {
    var t := Current(ps, s, loads).(status := Committing);
    Persist(s, t, lands).(pc := Passing(0, t), passes := s.passes + [t.round])
  }

  function Called(ps: seq<Participant>, s: State): State
    requires s.pc.Passing? && s.pc.i < |ps| == |s.last|
  {
    if ps[s.pc.i].commits
    then s.(last := s.last[s.pc.i := Some(CommitCall)],
            commits := s.commits + [Delivery(s.pc.i, s.pc.work.round)])
    else s
  }

  function AllPhase2(parts: seq<PartState>): (r: seq<PartState>)
    ensures |r| == |parts|
    ensures forall i :: 0 <= i < |r| ==>
              r[i].phase2 && r[i].id == parts[i].id && r[i].vote == parts[i].vote && r[i].phase1 == parts[i].phase1
  {
    seq(|parts|, i requires 0 <= i < |parts| => parts[i].(phase2 := true))
  }

  function Apply(ps: seq<Participant>, s: State, a: Action): State
    requires Enabled(ps, s, a)
  {
    match a
    case Restart => s.(mem := None, pc := Idle)
    case Recover(loads) => if loads && s.doc.Some? then s.(mem := s.doc) else s
    case PrepareStart(loads, lands) => PrepareFrom(ps, s, loads, lands)
    case Ask(answer) => Hear(ps, s, answer)
    case SaveRefusal(lands) => Persist(s, s.pc.work, lands).(pc := Opening(s.pc.work))
    case VotesDone(lands) =>
      Persist(s, s.pc.work.(status := Prepared, parts := s.pc.work.parts[..s.pc.i]), lands).(pc := Idle)
    case AbortStart(loads) =>
      var t := Current(ps, s, loads);
      if Terminal(t.status) then s else s.(pc := Opening(t))
    case OpenAbort(lands) =>
      var t := s.pc.work.(status := Aborting);
      Persist(s, t, lands).(pc := Notifying(0, t))
    case NotifyOne =>
      var t := s.(pc := Notifying(s.pc.i + 1, s.pc.work));
      if ps[s.pc.i].aborts then t.(last := s.last[s.pc.i := Some(AbortCall)]) else t
    case CloseAbort(lands) => Persist(s, s.pc.work.(status := Aborted), lands).(pc := Idle)
    case CommitStart(loads, lands) => CommitFrom(ps, s, loads, lands)
    case CommitOne(ok) =>
      // a failure aborts from the coordinator's own state, which is COMMITTING
      Called(ps, s).(pc := if ok then Passing(s.pc.i + 1, s.pc.work) else Opening(s.pc.work))
    case CommitDone(lands) =>
      Persist(s, s.pc.work.(status := Committed, parts := AllPhase2(s.pc.work.parts[..s.pc.i])), lands)
        .(pc := Idle)
  }

  /** What is assumed of the store. */
  datatype Rule =
    | AnyPersist   // any persist or load may fail
    | OpenersLand  // the persist that opens a pass lands, unless losing it would leave nothing misleading
    | AllLand      // every persist and load works

  /** Losing the persist that opens a pass would leave a status that says something else. */
  predicate Misleading(s: State, a: Action) {
    || (a.CommitStart? && (Stored(s, Aborted) || Stored(s, Prepared)))
    || (a.OpenAbort? && Stored(s, Committed))
  }

  predicate Obeys(s: State, a: Action, rule: Rule) {
    match rule
    case AnyPersist => true
    case OpenersLand => (a.CommitStart? || a.OpenAbort?) && Misleading(s, a) ==> a.lands
    case AllLand =>
      && (a.PrepareStart? || a.CommitStart? ==> a.loads && a.lands)
      && (a.Recover? || a.AbortStart? ==> a.loads)
      && (a.SaveRefusal? || a.VotesDone? || a.OpenAbort? || a.CloseAbort? || a.CommitDone? ==> a.lands)
  }

  /** s' is reached from s by the listed steps. */
  predicate Run(ps: seq<Participant>, s: State, acts: seq<Action>, s': State, rule: Rule)
    decreases |acts|
  {
    if acts == [] then s == s'
    else
      && Enabled(ps, s, acts[0]) && Obeys(s, acts[0], rule)
      && Run(ps, Apply(ps, s, acts[0]), acts[1..], s', rule)
  }
}
