/** The coordinator as its own code runs it. Every method is proved to be a run of the step system of
    CoordinatorModel. */
module Coordinator {
  import opened Wrappers
  import opened Enums
  import Models
  import opened CoordinatorModel
  import opened CoordinatorSafety
  import opened CoordinatorTrail

  /** The part of the transaction document that the protocol reads. */
  datatype TransactionState = TransactionState(status: Status, parts: seq<PartState>)

  function View(t: Tx): TransactionState { TransactionState(t.status, t.parts) }

  function ViewDoc(t: Option<Tx>): Option<TransactionState> {
    if t.Some? then Some(View(t.value)) else None
  }

  // ---- the stored document ----

  /** The other fields of the document, which are carried along. */
  datatype Stamps = Stamps(
    transactionId: string, createdAt: string, updatedAt: string, coordinatorLambda: string, timeoutMs: int,
    lambdaNames: seq<string>, heartbeats: seq<string>)

  function At(texts: seq<string>, i: nat): string { if i < |texts| then texts[i] else "" }

  function VoteJson(v: Option<Vote>): Models.Json {
    match v
    case None => Models.Null
    case Some(Yes) => Models.Str("YES")
    case Some(No) => Models.Str("NO")
  }

  function VoteOf(j: Models.Json): Option<Vote> {
    if j == Models.Str("YES") then Some(Yes) else if j == Models.Str("NO") then Some(No) else None
  }

  function ToModel(t: TransactionState, m: Stamps): Models.TransactionState {
    Models.TransactionState(
      m.transactionId, t.status,
      seq(|t.parts|, i requires 0 <= i < |t.parts| =>
        Models.ParticipantState(t.parts[i].id, At(m.lambdaNames, i), VoteJson(t.parts[i].vote), t.parts[i].phase1,
                                t.parts[i].phase2, At(m.heartbeats, i))),
      m.createdAt, m.updatedAt, m.coordinatorLambda, m.timeoutMs)
  }

  function OfModel(d: Models.TransactionState): TransactionState {
    TransactionState(
      d.status,
      seq(|d.participants|, i requires 0 <= i < |d.participants| =>
        var p := d.participants[i];
        PartState(p.participantId, VoteOf(p.vote), p.phase1Complete, p.phase2Complete)))
  }

  /** `to_json` */
  function Encode(t: TransactionState, m: Stamps): Models.Json { Models.TransactionJson(ToModel(t, m)) }

  /** `from_json`; None where it raises. */
  function Decode(j: Models.Json, py: Models.Python): Option<TransactionState> {
    var d := Models.TransactionOf(j, py);
    if d.None? then None else Some(OfModel(d.value))
  }

  /** A stored document reads back as the statuses, votes and phases that were stored, whatever the other
      fields hold. */
  lemma DocumentRoundTrip(t: TransactionState, m: Stamps, py: Models.Python)
    ensures Decode(Encode(t, m), py) == Some(t)
  {
    Models.TransactionRoundTrip(ToModel(t, m), py);
    ModelRoundTrip(t, m);
  }

  lemma VoteRoundTrip(v: Option<Vote>)
    ensures VoteOf(VoteJson(v)) == v
  {
    assert "YES"[0] != "NO"[0];
  }

  lemma ModelRoundTrip(t: TransactionState, m: Stamps)
    ensures OfModel(ToModel(t, m)) == t
  {
    var back := OfModel(ToModel(t, m));
    forall i | 0 <= i < |t.parts| ensures back.parts[i] == t.parts[i] {
      VoteRoundTrip(t.parts[i].vote);
    }
    assert back.parts == t.parts;
  }

  /** A reader that gives back what was written. */
  ghost predicate Undoes(read: Models.Json -> Option<TransactionState>) {
    forall t: TransactionState, m: Stamps :: read(Encode(t, m)) == Some(t)
  }

  lemma ReadsBack(read: Models.Json -> Option<TransactionState>, t: TransactionState, m: Stamps)
    requires Undoes(read)
    ensures read(Encode(t, m)) == Some(t)
  {
  }

  /** The coordinator's document in the checkpoint bucket, as JSON. Saves and loads fail open; whether the
      n-th call works is decided outside. */
  class DocumentStore {
    const works: nat -> bool
    const read: Models.Json -> Option<TransactionState>
    var calls: nat
    var json: Option<Models.Json>
    ghost var document: Option<TransactionState>   // what the JSON says

    constructor (works: nat -> bool, py: Models.Python)
      ensures this.works == works && calls == 0 && document == None && Faithful()
    {
      this.works, calls, json, document := works, 0, None, None;
      this.read := j => Decode(j, py);
      new;
      forall t, m ensures read(Encode(t, m)) == Some(t) {
        DocumentRoundTrip(t, m, py);
      }
    }

    ghost predicate Faithful()
      reads this
    {
      && Undoes(read)
      && (json.None? <==> document.None?)
      && (json.Some? ==> read(json.value) == document)
    }

    ghost predicate NextWorks()
      reads this`calls
    {
      works(calls)
    }

    ghost predicate AlwaysWorks() { forall n :: works(n) }

    method SaveDocument(t: TransactionState)
      requires Faithful()
      modifies this
      ensures Faithful() && calls == old(calls) + 1
      ensures document == if old(NextWorks()) then Some(t) else old(document)
    {
      if works(calls) {
        var m: Stamps := *;
        ReadsBack(read, t, m);
        json, document := Some(Encode(t, m)), Some(t);
      }
      calls := calls + 1;
    }

    method LoadDocument() returns (t: Option<TransactionState>)
      requires Faithful()
      modifies this`calls
      ensures Faithful() && calls == old(calls) + 1
      ensures t == if old(NextWorks()) then document else None
    {
      t := if works(calls) && json.Some? then read(json.value) else None;
      calls := calls + 1;
    }
  }

  ghost predicate Traced(ps: seq<Participant>, states: seq<State>, acts: seq<Action>, rule: Rule) {
    && |states| == |acts| + 1
    && forall k {:trigger acts[k]} :: 0 <= k < |acts| ==>
         && Enabled(ps, states[k], acts[k])
         && Obeys(states[k], acts[k], rule)
         && states[k + 1] == Apply(ps, states[k], acts[k])
  }

  lemma {:induction false} TracedIsRun(ps: seq<Participant>, states: seq<State>, acts: seq<Action>, rule: Rule)
    requires Traced(ps, states, acts, rule)
    ensures Run(ps, states[0], acts, states[|acts|], rule)
    decreases |acts|
  {
    if acts != [] {
      var a := acts[0];
      assert forall k :: 0 <= k < |acts| - 1 ==> acts[1..][k] == acts[k + 1];
      assert Traced(ps, states[1..], acts[1..], rule);
      TracedIsRun(ps, states[1..], acts[1..], rule);
    }
  }

  /** What has happened to one transaction id so far, over all its coordinator objects. */
  class Ledger {
    const ps: seq<Participant>
    ghost var states: seq<State>
    ghost var history: seq<Action>
    ghost var model: State
    ghost var openersLanded: bool

    ghost predicate Valid()
      reads this
    {
      && Traced(ps, states, history, if openersLanded then OpenersLand else AnyPersist)
      && Init(ps, states[0]) && states[|history|] == model
    }

    constructor (ps: seq<Participant>, ghost origin: State)
      requires Init(ps, origin)
      ensures Valid() && this.ps == ps && model == origin && history == [] && openersLanded
    {
      this.ps := ps;
      this.states := [origin];
      this.history := [];
      this.model := origin;
      this.openersLanded := true;
    }

    lemma IsRun()
      requires Valid()
      ensures Init(ps, states[0])
      ensures Run(ps, states[0], history, model, if openersLanded then OpenersLand else AnyPersist)
      ensures Shape(ps, model) && Unsettled(model) && VoteShape(model)
    {
      var rule := if openersLanded then OpenersLand else AnyPersist;
      TracedIsRun(ps, states, history, rule);
      VoteShapeRun(ps, states[0], history, model, rule);
    }

    ghost method Take(a: Action)
      requires Valid() && Enabled(ps, model, a)
      modifies this
      ensures Valid() && model == Apply(ps, old(model), a) && history == old(history) + [a]
    {
      openersLanded := openersLanded && Obeys(model, a, OpenersLand);
      model := Apply(ps, model, a);
      states := states + [model];
      history := history + [a];
    }
  }

  predicate Voted(a: Answer) { !a.TimedOut? && !a.Raised? }

  /** The entries after a round that heard these answers: entry k is answered in place if answer k is a
      vote, and as it was otherwise. */
  function After(parts: seq<PartState>, answers: seq<Answer>): (r: seq<PartState>)
    ensures |r| == |parts|
  {
    seq(|parts|, k requires 0 <= k < |parts| =>
      if k < |answers| && Voted(answers[k]) then Answered(parts[k], CallVote(answers[k])) else parts[k])
  }

  lemma AfterOne(parts: seq<PartState>, answers: seq<Answer>, a: Answer)
    requires |answers| < |parts|
    ensures var n := |answers|;
            var r := After(parts, answers + [a]);
            && r[..n] == After(parts, answers)[..n]
            && r == (if Voted(a) then After(parts, answers)[n := Answered(parts[n], CallVote(a))]
                     else After(parts, answers))
            && After(parts, answers)[n..] == parts[n..]
            && r == After(parts, answers)[..n]
                    + (if Voted(a) then [Answered(parts[n], CallVote(a))] + parts[n + 1..] else parts[n..])
  {
  }

  lemma AfterFavourable(parts: seq<PartState>, answers: seq<Answer>)
    requires Favourable(answers) && |answers| == |parts|
    ensures AllFavour(After(parts, answers), |parts|)
  {
  }

  ghost predicate SomeNo(answers: seq<Answer>) {
    exists i :: 0 <= i < |answers| && answers[i].Said? && SpellsNo(answers[i].text)
  }

  lemma NoIsLast(answers: seq<Answer>)
    ensures Favourable(answers) ==> !SomeNo(answers)
    ensures answers != [] && Favourable(answers[..|answers| - 1]) ==>
              var a := answers[|answers| - 1];
              SomeNo(answers) <==> a.Said? && SpellsNo(a.text)
  {
    if answers != [] && Favourable(answers[..|answers| - 1]) {
      forall i | 0 <= i < |answers| - 1 ensures InFavour(answers[i]) {
        assert answers[..|answers| - 1][i] == answers[i];
      }
    }
  }

  /** Overwriting the last round twice is overwriting it once. */
  lemma LastRound(rounds: seq<seq<Answer>>, a: seq<Answer>, b: seq<Answer>)
    requires rounds != []
    ensures var r := |rounds| - 1;
            rounds[r := a][r := b] == rounds[r := b] && rounds[r := a][r] == a
  {
  }

  datatype Verdict =
    | AllPrepared       // prepare: every vote was YES
    | VotedDown         // prepare: a NO; everything aborted
    | TimeoutRaised     // prepare: a vote timed out; everything aborted
    | VoteRaised        // prepare: a participant raised; PREPARING is left behind
    | AllCommitted
    | CannotCommit      // commit: the transaction is not PREPARED
    | CommitRaised      // commit: a callback failed; everything aborted

  class Coordinator {
    const participants: seq<Participant>
    const store: DocumentStore
    const ledger: Ledger
    var state: Option<TransactionState>

    ghost predicate Valid()
      reads this, store, ledger
    {
      && ledger.Valid() && ledger.ps == participants
      && store.Faithful() && store.document == ViewDoc(ledger.model.doc)
      && state == ViewDoc(ledger.model.mem)
    }

    ghost predicate AtRest()
      reads this, store, ledger
    {
      Valid() && ledger.model.pc.Idle?
    }

    /** A new object for the same transaction, after the previous one ended or died. */
    constructor (participants: seq<Participant>, store: DocumentStore, ledger: Ledger)
      requires ledger.Valid() && ledger.ps == participants
      requires store.Faithful() && store.document == ViewDoc(ledger.model.doc)
      modifies ledger
      ensures AtRest() && this.participants == participants && this.store == store && this.ledger == ledger
      ensures ledger.history == old(ledger.history) + [Restart] && state == None
    {
      this.participants := participants;
      this.store := store;
      this.ledger := ledger;
      this.state := None;
      new;
      ledger.Take(Restart);
    }

    function BootstrapState(): TransactionState {
      TransactionState(Initiated, InitialParts(participants))
    }

    /** Fail-open: memory moves on whether or not the document was stored. */
    method Persist(t: TransactionState) returns (ghost landed: bool)
      requires store.Faithful()
      modifies this`state, store
      ensures store.Faithful()
      ensures state == Some(t) && store.calls == old(store.calls) + 1 && landed == old(store.NextWorks())
      ensures store.document == if landed then Some(t) else old(store.document)
    {
      landed := store.NextWorks();
      store.SaveDocument(t);
      state := Some(t);
    }

    /** What is remembered is stored, provided the store works. */
    ghost predicate Kept()
      reads this, store
    {
      store.AlwaysWorks() ==> store.document == state
    }

    method Recover() returns (found: bool)
      requires AtRest()
      modifies this`state, ledger, store`calls
      ensures AtRest() && old(ledger.history) <= ledger.history
      ensures found <==> old(store.NextWorks()) && store.document.Some?
      ensures state == if found then store.document else old(state)
    {
      ghost var worked := store.NextWorks();
      var loaded := store.LoadDocument();
      ledger.Take(Action.Recover(worked));
      found := loaded.Some?;
      if found {
        state := loaded;
      }
    }

    /** The answer the participant's vote callback comes to; NoMethod when it offers none. */
    method Poll(i: nat) returns (answer: Answer)
      requires i < |participants|
      ensures answer.NoMethod? <==> !participants[i].votes
    {
      if !participants[i].votes {
        return NoMethod;
      }
      answer := *;
      if answer.NoMethod? {
        answer := TimedOut;
      }
    }

    /** Polls participant i and notes the answer. */
    method AskParticipant(i: nat) returns (answer: Answer)
      requires Valid() && ledger.model.pc.Voting? && ledger.model.pc.i == i < |participants|
      requires |ledger.model.pc.work.parts| == |participants|
      requires ledger.model.rounds != []
      modifies ledger
      ensures Valid() && old(ledger.history) <= ledger.history
      ensures ledger.model.last == old(ledger.model.last)
      ensures var r := |old(ledger.model.rounds)| - 1;
              ledger.model.rounds == old(ledger.model.rounds)[r := old(ledger.model.rounds)[r] + [answer]]
      ensures answer.Raised? ==> ledger.model.pc.Idle?
      ensures answer.TimedOut? ==> ledger.model.pc.Refused?
                                   && View(ledger.model.pc.work) == old(View(ledger.model.pc.work))
      ensures !answer.Raised? && !answer.TimedOut? ==>
                && (if CallVote(answer).No? then ledger.model.pc.Refused?
                    else ledger.model.pc.Voting? && ledger.model.pc.i == i + 1)
                && var was := old(View(ledger.model.pc.work));
                   View(ledger.model.pc.work)
                   == was.(parts := was.parts[i := Answered(was.parts[i], CallVote(answer))])
    {
      answer := Poll(i);
      ledger.Take(Ask(answer));
    }

    /** What a round that ends without unanimity leaves: the last answer is to blame, the earlier ones
        were in favour; the votes heard are in the document and everyone has been told to abort, unless the
        last participant raised. */
    ghost predicate StoppedBy(verdict: Verdict, base: seq<PartState>, answers: seq<Answer>)
      reads this, ledger
    {
      && answers != [] && Favourable(answers[..|answers| - 1]) && state.Some?
      && var a := answers[|answers| - 1];
         match verdict
         case VotedDown => a.Said? && SpellsNo(a.text) && AbortedWith(After(base, answers))
         case TimeoutRaised => a.TimedOut? && AbortedWith(After(base, answers))
         case VoteRaised => a.Raised? && state.value == TransactionState(Preparing, base)
         case _ => false
    }

    ghost predicate AbortedWith(parts: seq<PartState>)
      reads this, ledger
    {
      && state == Some(TransactionState(Aborted, parts))
      && |ledger.model.last| == |participants| && ToldAbort(participants, ledger.model.last, |participants|)
    }

    /** The entries a `prepare` starts from. */
    ghost function Base(): seq<PartState>
      reads store
    {
      if store.NextWorks() && store.document.Some? then store.document.value.parts else InitialParts(participants)
    }

    /** Phase one. `answers` is what this round heard, in order. */
    method Prepare() returns (verdict: Verdict, ghost answers: seq<Answer>)
      requires AtRest()
      modifies this`state, store, ledger
      ensures Kept() && store.calls == old(store.calls) + match verdict
                                                          case AllPrepared => 3
                                                          case VotedDown => 5
                                                          case TimeoutRaised => 5
                                                          case _ => 2
      ensures AtRest() && old(ledger.history) <= ledger.history
      ensures ledger.model.rounds == old(ledger.model.rounds) + [answers]
      ensures verdict.AllPrepared? || StoppedBy(verdict, old(Base()), answers)
      ensures verdict.VotedDown? <==> SomeNo(answers)
      ensures verdict.AllPrepared? ==>
                && |answers| == |participants| && Favourable(answers)
                && state == Some(TransactionState(Prepared, After(old(Base()), answers)))
                && |state.value.parts| == |participants|
                && AllFavour(state.value.parts, |participants|)
      ensures verdict.AllPrepared? || verdict.VoteRaised? ==> ledger.model.last == old(ledger.model.last)
    {
      var t := BeginRound();
      var updated;
      verdict, updated, answers := CollectVotes(t);
      NoIsLast(answers);
      if verdict.AllPrepared? {
        assert updated[..|participants|] == updated;
        ghost var landed := Persist(TransactionState(Prepared, updated));
        ledger.Take(VotesDone(landed));
        AfterFavourable(t.parts, answers);
      }
    }

    /** The voting loop stands after these answers. */
    ghost predicate Polled(t: TransactionState, updated: seq<PartState>, answers: seq<Answer>)
      reads this, store, ledger
    {
      && Valid() && Kept() && state == Some(t) && t.status.Preparing? && |t.parts| == |participants|
      && ledger.model.pc.Voting? && ledger.model.pc.i == |answers| <= |participants|
      && ledger.model.rounds != [] && ledger.model.rounds[|ledger.model.rounds| - 1] == answers
      && View(ledger.model.pc.work) == t.(parts := After(t.parts, answers))
      && updated == After(t.parts, answers)[..|answers|] && Favourable(answers)
    }

    /** The voting loop; it stops at the first participant that refuses, times out or raises. */
    method CollectVotes(t: TransactionState)
      returns (verdict: Verdict, updated: seq<PartState>, ghost answers: seq<Answer>)
      requires Polled(t, [], [])
      modifies this`state, store, ledger
      ensures Kept()
      ensures store.calls == old(store.calls) + if verdict.VotedDown? || verdict.TimeoutRaised? then 3 else 0
      ensures Valid() && old(ledger.history) <= ledger.history
      ensures ledger.model.rounds == old(ledger.model.rounds)[|old(ledger.model.rounds)| - 1 := answers]
      ensures verdict.AllPrepared? ==>
                && Polled(t, updated, answers) && |answers| == |participants| && updated == After(t.parts, answers)
      ensures !verdict.AllPrepared? ==> ledger.model.pc.Idle? && StoppedBy(verdict, t.parts, answers)
      ensures verdict.AllPrepared? || verdict.VoteRaised? ==> ledger.model.last == old(ledger.model.last)
    {
      answers, updated := [], [];
      while |updated| < |participants|
        invariant Polled(t, updated, answers)
        invariant ledger.model.rounds == old(ledger.model.rounds)[|old(ledger.model.rounds)| - 1 := answers]
        invariant ledger.model.last == old(ledger.model.last) && old(ledger.history) <= ledger.history
        invariant store.calls == old(store.calls)
        decreases |participants| - |updated|
      {
        ghost var was := answers;
        verdict, updated, answers := TakeVote(t, updated, answers);
        LastRound(old(ledger.model.rounds), was, answers);
        if !verdict.AllPrepared? {
          return;
        }
      }
      assert After(t.parts, answers)[..|participants|] == After(t.parts, answers);
      verdict := AllPrepared;
    }

    /** One participant's turn. AllPrepared says only that the loop goes on. */
    method TakeVote(t: TransactionState, updated: seq<PartState>, ghost answers: seq<Answer>)
      returns (verdict: Verdict, more: seq<PartState>, ghost heard: seq<Answer>)
      requires Polled(t, updated, answers) && |updated| < |participants|
      modifies this`state, store, ledger
      ensures Kept() && |heard| == |answers| + 1 && heard[..|answers|] == answers
      ensures store.calls == old(store.calls) + if verdict.VotedDown? || verdict.TimeoutRaised? then 3 else 0
      ensures Valid() && old(ledger.history) <= ledger.history
      ensures ledger.model.rounds == old(ledger.model.rounds)[|old(ledger.model.rounds)| - 1 := heard]
      ensures verdict.AllPrepared? ==> Polled(t, more, heard)
      ensures !verdict.AllPrepared? ==> ledger.model.pc.Idle? && StoppedBy(verdict, t.parts, heard)
      ensures verdict.AllPrepared? || verdict.VoteRaised? ==> ledger.model.last == old(ledger.model.last)
    {
      var i := |updated|;
      var answer := AskParticipant(i);
      heard := answers + [answer];
      AfterOne(t.parts, answers, answer);
      more := updated;
      if answer.Raised? {
        return VoteRaised, more, heard;
      }
      if !answer.TimedOut? {
        more := updated + [Answered(t.parts[i], CallVote(answer))];
        if CallVote(answer).Yes? {
          assert InFavour(answer) && Favourable(heard);
          return AllPrepared, more, heard;
        }
      }
      assert heard[..|heard| - 1] == answers;
      assert more + t.parts[|more|..] == After(t.parts, heard);
      Refuse(t.(parts := more + t.parts[|more|..]));
      verdict := if answer.TimedOut? then TimeoutRaised else VotedDown;
    }

    /** The first half of `prepare`: PREPARING, on top of whatever document there is. */
    method BeginRound() returns (t: TransactionState)
      requires AtRest()
      modifies this`state, store, ledger
      ensures Kept() && store.calls == old(store.calls) + 2
      ensures t.parts == old(Base()) && old(ledger.history) <= ledger.history
      ensures Polled(t, [], [])
      ensures ledger.model.rounds == old(ledger.model.rounds) + [[]]
      ensures ledger.model.last == old(ledger.model.last)
    {
      ledger.IsRun();
      ghost var worked := store.NextWorks();
      var loaded := store.LoadDocument();
      t := if loaded.Some? then loaded.value else BootstrapState();
      t := t.(status := Preparing);
      ghost var landed := Persist(t);
      ledger.Take(PrepareStart(worked, landed));
      assert After(t.parts, []) == t.parts;
    }

    /** Persists the votes heard so far, then aborts everyone. */
    method Refuse(t: TransactionState)
      requires Valid() && ledger.model.pc.Refused? && View(ledger.model.pc.work) == t
      modifies this`state, store, ledger
      ensures Kept() && store.calls == old(store.calls) + 3
      ensures AtRest() && old(ledger.history) <= ledger.history
      ensures AbortedWith(t.parts)
      ensures ledger.model.rounds == old(ledger.model.rounds)
    {
      ghost var landed := Persist(t);
      ledger.Take(SaveRefusal(landed));
      FinalizeAbort(t);
    }

    /** ABORTING, every abort callback, ABORTED. */
    method FinalizeAbort(t: TransactionState)
      requires Valid() && ledger.model.pc.Opening? && View(ledger.model.pc.work) == t
      modifies this`state, store, ledger
      ensures Kept() && store.calls == old(store.calls) + 2
      ensures AtRest() && old(ledger.history) <= ledger.history
      ensures state == Some(t.(status := Aborted))
      ensures ledger.model.rounds == old(ledger.model.rounds)
      ensures |ledger.model.last| == |participants| && ToldAbort(participants, ledger.model.last, |participants|)
    {
      ghost var landed := Persist(t.(status := Aborting));
      ledger.Take(OpenAbort(landed));
      NotifyAbort();
      landed := Persist(t.(status := Aborted));
      ledger.Take(CloseAbort(landed));
    }

    /** Calls every abort callback there is; what they raise is logged only. */
    method NotifyAbort()
      requires Valid() && ledger.model.pc.Notifying? && ledger.model.pc.i == 0
      modifies ledger
      ensures Valid() && old(ledger.history) <= ledger.history
      ensures ledger.model.pc == Notifying(|participants|, old(ledger.model.pc.work))
      ensures ledger.model.rounds == old(ledger.model.rounds)
      ensures |ledger.model.last| == |participants| && ToldAbort(participants, ledger.model.last, |participants|)
    {
      assert |ledger.model.last| == |participants| by { ledger.IsRun(); }
      for i := 0 to |participants|
        invariant Valid() && ledger.model.pc == Notifying(i, old(ledger.model.pc.work))
        invariant |ledger.model.last| == |participants| && ToldAbort(participants, ledger.model.last, i)
        invariant ledger.model.rounds == old(ledger.model.rounds)
        invariant old(ledger.history) <= ledger.history
      {
        ledger.Take(NotifyOne);
      }
    }

    /** Commits everyone, or aborts everyone when a callback fails. */
    method Commit() returns (verdict: Verdict)
      requires AtRest()
      modifies this`state, store, ledger
      ensures verdict.AllCommitted? || verdict.CommitRaised? ==> Kept()
      ensures store.calls == old(store.calls) + (if old(state).None? then 1 else 0)
                             + if verdict.AllCommitted? then 2 else if verdict.CommitRaised? then 3 else 0
      ensures AtRest() && old(ledger.history) <= ledger.history
      ensures |ledger.model.last| == |participants|
      ensures match verdict
              case AllCommitted =>
                && state == Some(TransactionState(Committed, AllPhase2(old(Believed()).parts)))
                && ToldCommit(participants, ledger.model.last, |participants|)
              case CommitRaised =>
                && state == Some(old(Believed()).(status := Aborted))
                && ToldAbort(participants, ledger.model.last, |participants|)
              case CannotCommit =>
                state == old(state) && store.document == old(store.document)
                && ledger.model == old(ledger.model)
              case _ => false
      ensures verdict.CannotCommit? <==> !old(Believed()).status.Prepared?
    {
      var t;
      ghost var worked;
      t, worked := Remembered();
      if !t.status.Prepared? {
        return CannotCommit;
      }
      var work := t.(status := Committing);
      BeginPass(work, worked);
      verdict := CommitAll(work);
    }

    /** The pass itself, and what follows from it. */
    method CommitAll(work: TransactionState) returns (verdict: Verdict)
      requires Valid() && ledger.model.pc.Passing? && ledger.model.pc.i == 0
      requires View(ledger.model.pc.work) == work && |work.parts| == |participants| == |ledger.model.last|
      modifies this`state, store, ledger
      ensures Kept() && AtRest() && old(ledger.history) <= ledger.history
      ensures verdict.AllCommitted? || verdict.CommitRaised?
      ensures store.calls == old(store.calls) + if verdict.AllCommitted? then 1 else 2
      ensures |ledger.model.last| == |participants|
      ensures verdict.AllCommitted? ==>
                && state == Some(TransactionState(Committed, AllPhase2(work.parts)))
                && ToldCommit(participants, ledger.model.last, |participants|)
      ensures verdict.CommitRaised? ==>
                && state == Some(work.(status := Aborted))
                && ToldAbort(participants, ledger.model.last, |participants|)
    {
      var ok;
      ghost var told;
      ok, told := CommitEach(work);
      if !ok {
        FinalizeAbort(work);
        return CommitRaised;
      }
      FinishCommit(work);
      verdict := AllCommitted;
    }

    /** COMMITTING, before anyone is told. */
    method BeginPass(work: TransactionState, ghost worked: bool)
      requires AtRest() && |work.parts| == |participants| == |ledger.model.last|
      requires var t := Current(participants, ledger.model, worked);
               t.status.Prepared? && work == View(t).(status := Committing)
      modifies this`state, store, ledger
      ensures Valid() && old(ledger.history) <= ledger.history && Kept()
      ensures store.calls == old(store.calls) + 1
      ensures ledger.model.pc.Passing? && ledger.model.pc.i == 0 && View(ledger.model.pc.work) == work
      ensures ledger.model.last == old(ledger.model.last)
    {
      ghost var landed := Persist(work);
      ledger.Take(CommitStart(worked, landed));
    }

    method FinishCommit(work: TransactionState)
      requires Valid() && ledger.model.pc.Passing? && ledger.model.pc.i == |participants| == |work.parts|
      requires View(ledger.model.pc.work) == work
      modifies this`state, store, ledger
      ensures Kept() && store.calls == old(store.calls) + 1
      ensures AtRest() && old(ledger.history) <= ledger.history
      ensures state == Some(TransactionState(Committed, AllPhase2(work.parts)))
      ensures ledger.model.last == old(ledger.model.last)
    {
      assert work.parts[..|participants|] == work.parts;
      ghost var landed := Persist(TransactionState(Committed, AllPhase2(work.parts)));
      ledger.Take(CommitDone(landed));
    }

    /** Calls the commit callbacks in order until one fails; `told` participants have had their turn, the
        one that failed included. */
    method CommitEach(work: TransactionState) returns (ok: bool, ghost told: nat)
      requires Valid() && ledger.model.pc.Passing? && ledger.model.pc.i == 0
      requires View(ledger.model.pc.work) == work && |work.parts| == |participants| == |ledger.model.last|
      modifies ledger
      ensures Valid() && old(ledger.history) <= ledger.history
      ensures told <= |participants| && (ok ==> told == |participants|)
      ensures !ok ==> told > 0 && participants[told - 1].commits
      ensures CommitsTold(old(ledger.model.last), ledger.model.last, told)
      ensures ok ==> ledger.model.pc == Passing(|participants|, old(ledger.model.pc.work))
      ensures !ok ==> ledger.model.pc.Opening? && View(ledger.model.pc.work) == work
    {
      ok, told := true, 0;
      for i := 0 to |participants|
        invariant Valid() && ledger.model.pc == Passing(i, old(ledger.model.pc.work))
        invariant told == i && CommitsTold(old(ledger.model.last), ledger.model.last, told)
        invariant old(ledger.history) <= ledger.history
      {
        ok := CallCommit(i);
        ledger.Take(CommitOne(ok));
        told := told + 1;
        if !ok {
          return;
        }
      }
      ok := true;
    }

    /** The first n participants, and no others, have been told to commit if they can be. */
    ghost predicate CommitsTold(before: seq<Option<Callback>>, after: seq<Option<Callback>>, n: nat) {
      && |before| == |after| == |participants|
      && forall k :: 0 <= k < |participants| ==>
           after[k] == if k < n && participants[k].commits then Some(CommitCall) else before[k]
    }

    /** Whether the participant's commit callback returns; one that is not offered counts as returning. */
    method CallCommit(i: nat) returns (ok: bool)
      requires i < |participants|
      ensures !participants[i].commits ==> ok
    {
      ok := *;
      if !participants[i].commits {
        ok := true;
      }
    }

    /** What the object remembers, else what a load finds, else a new transaction. */
    ghost function Believed(): TransactionState
      reads this, store
    {
      if state.Some? then state.value
      else if store.NextWorks() && store.document.Some? then store.document.value
      else BootstrapState()
    }

    method Remembered() returns (t: TransactionState, ghost worked: bool)
      requires Valid()
      modifies store`calls
      ensures t == old(Believed()) && store.calls == old(store.calls) + if state.Some? then 0 else 1
      ensures View(Current(participants, ledger.model, worked)) == t
      ensures |t.parts| == |participants| == |ledger.model.last|
    {
      ledger.IsRun();
      worked := state.Some? || store.NextWorks();
      if state.Some? {
        return state.value, worked;
      }
      var loaded := store.LoadDocument();
      t := if loaded.Some? then loaded.value else BootstrapState();
    }

    /** Aborts everyone, unless a verdict is already known. */
    method Abort()
      requires AtRest()
      modifies this`state, store, ledger
      ensures store.calls - old(store.calls)
           == (if old(state).None? then 1 else 0)
              + if Terminal(old(Believed()).status) then 0 else 2
      ensures !Terminal(old(Believed()).status) ==>
                && Kept() && state == Some(old(Believed()).(status := Aborted))
                && |ledger.model.last| == |participants|
                && ToldAbort(participants, ledger.model.last, |participants|)
      ensures AtRest() && old(ledger.history) <= ledger.history
      ensures Terminal(old(Believed()).status) ==>
                state == old(state) && store.document == old(store.document)
                && ledger.model.last == old(ledger.model.last)
    {
      var t;
      ghost var worked;
      t, worked := Remembered();
      ledger.Take(AbortStart(worked));
      if t.status.Aborted? || t.status.Committed? {
        return;
      }
      FinalizeAbort(t);
    }

    /** Whatever was done to the transaction so far: if the persists that open passes landed where losing
        them would mislead, the stored verdict is the last thing each participant was told, and every
        commit pass rests on a unanimous round of its own. */
    lemma Sound()
      requires Valid() && ledger.openersLanded && store.document.Some?
      ensures |ledger.model.last| == |participants|
      ensures store.document.value.status.Committed? ==>
                ToldCommit(participants, ledger.model.last, |participants|)
      ensures store.document.value.status.Aborted? ==>
                ToldAbort(participants, ledger.model.last, |participants|)
      ensures forall k :: 0 <= k < |ledger.model.passes| ==>
                Unanimous(participants, ledger.model.rounds, ledger.model.passes[k])
      ensures forall i, j :: 0 <= i < j < |ledger.model.passes| ==> ledger.model.passes[i] < ledger.model.passes[j]
    {
      ledger.IsRun();
      TerminalAgreement(participants, ledger.states[0], ledger.history, ledger.model);
      EarnedAndSpentOnce(participants, ledger.states[0], ledger.history, ledger.model);
    }
  }
}
