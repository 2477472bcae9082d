/** The leader lock as its own code runs it, on lock documents that are text. Every method is proved to be a
    run of the step system of LeaseModel in which the other contenders may act between any two steps. */
module LeaderLock {
  import opened Wrappers
  import opened Text
  import opened LeaseModel
  import opened LeaseExclusion

  // ---- the lock document ----

  /** `owner|expiry` */
  function Encode(owner: string, expiry: nat): string { owner + ['|'] + Decimal(expiry) }

  /** Owner and expiry of a lock document; a text without the separator reads as nobody's, and a part
      after it that is no number is an error. */
  function ParseBody(body: string): Result<(string, nat), string> {
    match SplitOnce(Strip(body), '|')
    case None => Ok(("", 0))
    case Some((owner, rest)) =>
      match ParseInt(rest)
      case None => Err("invalid literal for int()")
      case Some(expiry) => Ok((owner, expiry))
  }

  predicate PlainOwner(owner: string) { '|' !in owner && (owner == [] || owner[0] !in WHITESPACE) }

  lemma {:induction false} LStripJoined(owner: string, rest: string)
    ensures LStrip(owner + ['|'] + rest) == LStrip(owner) + ['|'] + rest
  {
    var s := owner + ['|'] + rest;
    if owner == [] {
      assert s[0] == '|';
    } else {
      assert s[0] == owner[0] && s[1..] == owner[1..] + ['|'] + rest;
      LStripJoined(owner[1..], rest);
    }
  }

  lemma {:induction false} LStripKeeps(s: string)
    ensures |LStrip(s)| <= |s|
    ensures LStrip(s) == s <==> s == [] || !IsSpace(s[0])
    ensures forall c :: c in LStrip(s) ==> c in s
  {
    if s != [] && IsSpace(s[0]) {
      LStripKeeps(s[1..]);
    }
  }

  lemma EncodedStrips(owner: string, expiry: nat)
    ensures Strip(Encode(owner, expiry)) == Encode(LStrip(owner), expiry)
  {
    LStripJoined(owner, Decimal(expiry));
    var t := Encode(LStrip(owner), expiry);
    assert t[|t| - 1] == Decimal(expiry)[|Decimal(expiry)| - 1];
  }

  /** Every lock document, read: `pre` and `post` are the white space around it. Without a bar it is nobody's;
      else the first bar ends the owner, and what follows it must be digits. */
  lemma {:induction false} ParsesAs(pre: string, text: string, post: string)
    requires Blank(pre) && Blank(post) && Trimmed(text)
    ensures '|' !in text ==> ParseBody(pre + text + post) == Ok(("", 0))
    ensures forall owner: string, rest: string :: text == owner + ['|'] + rest && '|' !in owner ==>
              && (rest != [] && AllDigits(rest) ==> ParseBody(pre + text + post) == Ok((owner, Value(rest))))
              && (rest == [] || !AllDigits(rest) ==> ParseBody(pre + text + post).Err?)
  {
    StripPadded(pre, text, post);
    forall owner: string, rest: string | text == owner + ['|'] + rest && '|' !in owner
      ensures SplitOnce(text, '|') == Some((owner, rest))
    {
      SplitJoined(owner, '|', rest);
    }
  }

  /** Exactly the owners for which a written lock document parses back to what was written. */
  lemma LeaseRoundTrip(owner: string, expiry: nat)
    ensures ParseBody(Encode(owner, expiry)) == Ok((owner, expiry)) <==> PlainOwner(owner)
  {
    EncodedStrips(owner, expiry);
    LStripKeeps(owner);
    if owner != [] { SpaceIff(owner[0]); }
    if '|' !in owner {
      SplitJoined(LStrip(owner), '|', Decimal(expiry));
    }
  }

  // ---- the contenders ----

  class LockStore {
    var text: Option<string>

    constructor ()
      ensures text == None
    {
      text := None;
    }
  }

  /** The steps c itself has taken, in order. */
  ghost function Own(acts: seq<Action>, c: nat): seq<Action> {
    if acts == [] then []
    else Own(acts[..|acts| - 1], c) + if By(acts[|acts| - 1], c) then [acts[|acts| - 1]] else []
  }

  lemma OwnSnoc(acts: seq<Action>, a: Action, c: nat)
    ensures Own(acts + [a], c) == Own(acts, c) + if By(a, c) then [a] else []
  {
    assert (acts + [a])[..|acts|] == acts;
  }

  /** Everyone who may ask for this lock, and what they have done so far. */
  class Contest {
    const lens: seq<nat>
    const names: seq<string>
    const store: LockStore
    var model: State
    ghost var states: seq<State>
    ghost var history: seq<Action>

    /** The lease lengths asked for are raised to 5 seconds. */
    constructor (asked: seq<int>, names: seq<string>, store: LockStore, clock: nat)
      requires |names| == |asked| && store.text == None
      requires forall i :: 0 <= i < |names| ==> PlainOwner(names[i])
      requires forall i, j :: 0 <= i < j < |names| ==> names[i] != names[j]
      ensures Valid() && this.names == names && this.store == store && history == []
      ensures |lens| == |asked|
      ensures forall i :: 0 <= i < |asked| ==>
                lens[i] >= 5 && lens[i] >= asked[i] && (lens[i] == 5 || lens[i] == asked[i])
    {
      var lens: seq<nat> :=
        seq(|asked|, i requires 0 <= i < |asked| => if asked[i] > 5 then asked[i] else 5);
      this.lens := lens;
      this.names := names;
      this.store := store;
      var origin := State(clock, None, seq(|lens|, _ => Pc.Idle), seq(|lens|, _ => None));
      this.model := origin;
      this.states := [origin];
      this.history := [];
    }

    ghost predicate NamesOk() {
      && |names| == |lens|
      && (forall i :: 0 <= i < |names| ==> PlainOwner(names[i]))
      && (forall i, j :: 0 <= i < j < |names| ==> names[i] != names[j])
      && (forall i :: 0 <= i < |lens| ==> lens[i] >= 5)
    }

    function Render(l: Option<Lease>): Option<string>
      requires l.Some? ==> l.value.owner < |names|
    {
      if l.None? then None else Some(Encode(names[l.value.owner], l.value.expiry))
    }

    ghost predicate Run()
      reads this
    {
      && NamesOk() && Traced(lens, states, history) && Init(lens, states[0])
      && states[|history|] == model && Sized(lens, model)
      && (model.lock.Some? ==> model.lock.value.owner < |names|)
    }

    ghost predicate Valid()
      reads this, store
    {
      Run() && store.text == Render(model.lock)
    }

    /** It has gone on from this history, through these states. */
    ghost predicate Since(acts: seq<Action>, passed: seq<State>)
      reads this
    {
      acts <= history && passed <= states
    }

    ghost function Trail(c: nat): seq<Action>
      reads this
    {
      Own(history, c)
    }

    /** Takes a step; the caller has changed, or is about to change, the document to match. */
    method Take(a: Action, ghost c: nat)
      requires Run() && Enabled(lens, model, a)
      modifies this
      ensures Run() && model == Apply(lens, old(model), a) && history == old(history) + [a]
      ensures Since(old(history), old(states))
      ensures Trail(c) == old(Trail(c)) + if By(a, c) then [a] else []
    {
      OwnSnoc(history, a, c);
      Extend(lens, states, history, a);
      states := states + [Apply(lens, model, a)];
      history := history + [a];
      model := Apply(lens, model, a);
    }

    /** Everyone but `me` may take any steps now. */
    method Others(me: nat)
      requires Valid() && me < |lens|
      modifies this, store
      ensures Valid() && model.pcs[me] == old(model.pcs[me]) && model.leads[me] == old(model.leads[me])
      ensures Since(old(history), old(states)) && Trail(me) == old(Trail(me)) && model.clock >= old(model.clock)
    {
      var n: nat := *;
      while n > 0
        invariant Valid() && model.pcs[me] == old(model.pcs[me]) && model.leads[me] == old(model.leads[me])
        invariant Since(old(history), old(states)) && model.clock >= old(model.clock)
        invariant Trail(me) == old(Trail(me))
      {
        var a: Action := *;
        if Enabled(lens, model, a) && !By(a, me) {
          Take(a, me);
          store.text := Render(model.lock);
        }
        n := n - 1;
      }
    }

    /** The wall clock, which never runs backwards. */
    method Now(ghost c: nat) returns (t: nat)
      requires Valid()
      modifies this
      ensures Valid() && t == model.clock >= old(model.clock) && model == old(model).(clock := t)
      ensures history == old(history) + [Tick(t)] && Trail(c) == old(Trail(c))
      ensures Since(old(history), old(states))
    {
      t := *;
      if t < model.clock {
        t := model.clock;
      }
      Take(Tick(t), c);
    }
  }

  datatype Found = Mine | Taken | Free

  datatype Outcome = Leader | NotLeader | StoreRaised

  /** `works(n)`: whether this contender's n-th call to the store works; `lands(n)`: whether it takes effect if
      it does not and is a put. */
  class S3LeaderLock {
    const me: nat
    const contest: Contest
    const works: nat -> bool
    const lands: nat -> bool
    var calls: nat

    ghost predicate AtRest()
      reads this, contest, contest.store
    {
      contest.Valid() && me < |contest.lens| && contest.model.pcs[me].Idle?
    }

    constructor (contest: Contest, me: nat, works: nat -> bool, lands: nat -> bool)
      requires contest.Valid() && me < |contest.lens| && contest.model.pcs[me].Idle?
      ensures AtRest() && this.contest == contest && this.me == me
      ensures this.works == works && this.lands == lands && calls == 0
    {
      this.contest, this.me, this.works, this.lands, calls := contest, me, works, lands, 0;
    }

    /** What the store answers; None both for no document and for a failed read. */
    method LoadDocument() returns (text: Option<string>)
      modifies this
      ensures calls == old(calls) + 1
      ensures text == if works(old(calls)) then contest.store.text else None
    {
      text := if works(calls) then contest.store.text else None;
      calls := calls + 1;
    }

    /** What becomes of a put that is call n. */
    function PutStep(n: nat): Action {
      if works(n) then Write(me, true) else if lands(n) then WriteRaises(me) else Write(me, false)
    }

    /** Computes the deadline and puts it; the put raises when it fails, and others may act before and while it
        is under way. */
    method WriteLease() returns (landed: bool)
      requires contest.Valid() && me < |contest.lens|
      requires contest.model.pcs[me].Renewing? || contest.model.pcs[me].Claiming?
      modifies this, contest, contest.store
      ensures contest.Valid() && contest.Since(old(contest.history), old(contest.states))
      ensures landed == works(old(calls)) && calls == old(calls) + 1
      ensures contest.Trail(me) == old(contest.Trail(me)) + [Stamp(me), PutStep(old(calls))]
      ensures !landed ==> contest.model.pcs[me].Idle? && contest.model.leads[me].None?
      ensures landed && old(contest.model.pcs[me]).Renewing? ==>
                contest.model.pcs[me].Idle? && contest.model.leads[me].Some?
                && contest.model.leads[me].value >= old(contest.model.clock) + contest.lens[me]
      ensures landed && old(contest.model.pcs[me]).Claiming? ==> contest.model.pcs[me].Wrote?
      ensures landed ==> Owns(contest.model.lock, me)
    {
      var deadline := LeaseDeadline();
      landed := Put(Encode(contest.names[me], deadline), deadline);
      assert contest.Trail(me) == old(contest.Trail(me)) + ([Stamp(me)] + [PutStep(old(calls))]);
    }

    /** The deadline of a lease taken now. */
    method LeaseDeadline() returns (deadline: nat)
      requires contest.Valid() && me < |contest.lens|
      requires contest.model.pcs[me].Renewing? || contest.model.pcs[me].Claiming?
      modifies contest, contest.store
      ensures contest.Valid() && contest.Since(old(contest.history), old(contest.states))
      ensures contest.Trail(me) == old(contest.Trail(me)) + [Stamp(me)]
      ensures contest.model.pcs[me] == Stamped(deadline, old(contest.model.pcs[me]).Renewing?)
      ensures deadline == contest.model.clock + contest.lens[me] >= old(contest.model.clock) + contest.lens[me]
    {
      contest.Others(me);
      var now := contest.Now(me);
      contest.Take(Stamp(me), me);
      deadline := now + contest.lens[me];
    }

    /** The put itself; others may act before it lands. */
    method Put(text: string, deadline: nat) returns (landed: bool)
      requires contest.Valid() && me < |contest.lens|
      requires contest.model.pcs[me].Stamped? && contest.model.pcs[me].expiry == deadline
      requires text == Encode(contest.names[me], deadline)
      modifies this, contest, contest.store
      ensures contest.Valid() && contest.Since(old(contest.history), old(contest.states))
      ensures landed == works(old(calls)) && calls == old(calls) + 1
      ensures contest.Trail(me) == old(contest.Trail(me)) + [PutStep(old(calls))]
      ensures !landed ==> contest.model.pcs[me].Idle? && contest.model.leads[me].None?
      ensures landed ==> Owns(contest.model.lock, me) && contest.model.lock.value.expiry == deadline
      ensures landed && old(contest.model.pcs[me]).renewing ==>
                contest.model.pcs[me].Idle? && contest.model.leads[me] == Some(deadline)
      ensures landed && !old(contest.model.pcs[me]).renewing ==> contest.model.pcs[me] == Wrote(deadline)
      ensures works(old(calls)) || lands(old(calls)) ==> contest.store.text == Some(text)
    {
      contest.Others(me);
      landed := Land(text, deadline);
    }

    /** The put takes effect or does not, as it was decided outside. */
    method Land(text: string, deadline: nat) returns (landed: bool)
      requires contest.Valid() && me < |contest.lens|
      requires contest.model.pcs[me].Stamped? && contest.model.pcs[me].expiry == deadline
      requires text == Encode(contest.names[me], deadline)
      modifies this, contest, contest.store
      ensures contest.Valid() && contest.Since(old(contest.history), old(contest.states))
      ensures landed == works(old(calls)) && calls == old(calls) + 1
      ensures contest.Trail(me) == old(contest.Trail(me)) + [PutStep(old(calls))]
      ensures contest.model == Apply(contest.lens, old(contest.model), PutStep(old(calls)))
      ensures works(old(calls)) || lands(old(calls)) ==> contest.store.text == Some(text)
    {
      landed := works(calls);
      if landed || lands(calls) {
        contest.store.text := Some(text);
      }
      calls := calls + 1;
      contest.Take(PutStep(calls - 1), me);
    }

    /** The steps of a full attempt whose first call to the store is call n. */
    ghost function Course(n: nat): seq<Action> {
      [Sample(me), Load(me, works(n)), Stamp(me), PutStep(n + 1), Verify(me, works(n + 2))]
    }

    lemma CourseFrom(t: seq<Action>, n: nat)
      ensures t + [Sample(me)] + [Load(me, works(n))] == t + Course(n)[..2]
      ensures t + Course(n)[..2] + [Stamp(me), PutStep(n + 1)] == t + Course(n)[..4]
      ensures t + Course(n)[..4] + [Verify(me, works(n + 2))] == t + Course(n)[..5]
    {
    }

    /** One attempt, with everyone else free to act between its steps. True exactly when this attempt's
        lease was granted in the step system. Its own steps are the full course, or as much of it as it
        takes to come to rest, and each went as its call to the store did. `now` is the time it sampled, and
        `at` the place of its load in the history: an own lease found there, run out or not, is renewed with
        one more call; another's that still runs ends the attempt; anything else leads to a claim, and that
        to whatever owner the lock has when it is verified. */
    method Acquire() returns (outcome: Outcome, ghost at: nat, ghost now: nat)
      requires AtRest()
      modifies this, contest, contest.store
      ensures AtRest() && contest.Since(old(contest.history), old(contest.states))
      ensures outcome.Leader? <==> contest.model.leads[me].Some?
      ensures old(calls) < calls <= old(calls) + 3
      ensures contest.Trail(me) == old(contest.Trail(me)) + Course(old(calls))[..[2, 4, 5][calls - old(calls) - 1]]
      ensures outcome.StoreRaised? <==> calls == old(calls) + 2 && !works(old(calls) + 1)
      ensures Loaded(at, now, old(contest.history), old(contest.model.clock), old(calls))
      ensures var n := old(calls);
              var lock := contest.states[at].lock;
              if works(n) && lock.Some? && lock.value.owner == me then
                calls == n + 2 && outcome == if works(n + 1) then Leader else StoreRaised
              else if works(n) && lock.Some? && lock.value.expiry > now then
                calls == n + 1 && outcome.NotLeader?
              else if works(n + 1) then
                calls == n + 3
                && outcome == if works(n + 2) && contest.model.lock.Some? && contest.model.lock.value.owner == me
                              then Leader else NotLeader
              else
                calls == n + 2 && outcome.StoreRaised?
      ensures outcome.Leader? && calls == old(calls) + 2 ==>
                contest.model.leads[me].value >= now + contest.lens[me]
    {
      var found;
      found, at, now := Enquire();
      CourseFrom(old(contest.Trail(me)), old(calls));
      outcome := Proceed(found);
    }

    /** What follows from what was found. */
    method Proceed(found: Found) returns (outcome: Outcome)
      requires contest.Valid() && me < |contest.lens| && Placed(found)
      modifies this, contest, contest.store
      ensures AtRest() && contest.Since(old(contest.history), old(contest.states))
      ensures outcome.Leader? <==> contest.model.leads[me].Some?
      ensures found.Taken? ==>
                outcome.NotLeader? && calls == old(calls) && contest.Trail(me) == old(contest.Trail(me))
      ensures found.Mine? ==>
                && calls == old(calls) + 1 && outcome == (if works(old(calls)) then Leader else StoreRaised)
                && contest.Trail(me) == old(contest.Trail(me)) + [Stamp(me), PutStep(old(calls))]
                && (outcome.Leader? ==>
                      contest.model.leads[me].value >= old(contest.model.clock) + contest.lens[me])
      ensures found.Free? ==> Claimed(outcome, old(calls), old(contest.Trail(me)))
    {
      match found {
        case Taken =>
          outcome := NotLeader;
        case Mine =>
          var renewed := WriteLease();
          outcome := if renewed then Leader else StoreRaised;
        case Free =>
          outcome := Claim();
      }
    }

    /** Where this contender stands after a load that found this. */
    ghost predicate Placed(found: Found)
      requires me < |contest.lens| && contest.Run()
      reads contest
    {
      match found
      case Taken => contest.model.pcs[me].Idle? && contest.model.leads[me].None?
      case Mine => contest.model.pcs[me].Renewing?
      case Free => contest.model.pcs[me].Claiming?
    }

    /** What a claim whose put is call n comes to. */
    ghost predicate Claimed(outcome: Outcome, n: nat, before: seq<Action>)
      reads this, contest
    {
      && (outcome.StoreRaised? <==> !works(n))
      && calls == n + (if works(n) then 2 else 1)
      && contest.Trail(me) == before + [Stamp(me), PutStep(n)] + (if works(n) then [Verify(me, works(n + 1))] else [])
      && (outcome.Leader? <==> works(n) && works(n + 1)
                               && contest.model.lock.Some? && contest.model.lock.value.owner == me)
    }

    /** The load that is call n was taken at this place of the history, after `now` had been sampled. */
    ghost predicate Loaded(at: nat, now: nat, before: seq<Action>, clock: nat, n: nat)
      requires me < |contest.lens| && contest.Run()
      reads contest
    {
      && |before| <= at < |contest.history| && contest.history[at] == Load(me, works(n))
      && Sized(contest.lens, contest.states[at]) && contest.states[at].pcs[me] == Sampled(now)
      && clock <= now <= contest.states[at].clock
    }

    /** Reads the clock, then the lock. */
    method Enquire() returns (found: Found, ghost at: nat, now: nat)
      requires AtRest()
      modifies this, contest, contest.store
      ensures contest.Valid() && contest.Since(old(contest.history), old(contest.states)) && calls == old(calls) + 1
      ensures contest.Trail(me) == old(contest.Trail(me)) + Course(old(calls))[..2]
      ensures Placed(found)
      ensures Loaded(at, now, old(contest.history), old(contest.model.clock), old(calls))
      ensures FoundIn(found, contest.states[at].lock, now, works(old(calls)))
      ensures contest.model.clock >= now
    {
      now := SampleClock();
      at := |contest.history|;
      found := Inspect(now);
      CourseFrom(old(contest.Trail(me)), old(calls));
    }

    /** The time, read with others free to act before and after. */
    method SampleClock() returns (now: nat)
      requires AtRest()
      modifies contest, contest.store
      ensures contest.Valid() && contest.Since(old(contest.history), old(contest.states))
      ensures contest.Trail(me) == old(contest.Trail(me)) + [Sample(me)]
      ensures contest.model.pcs[me] == Sampled(now) && old(contest.model.clock) <= now <= contest.model.clock
    {
      contest.Others(me);
      now := contest.Now(me);
      contest.Take(Sample(me), me);
      contest.Others(me);
    }

    /** What is to be found in this lock at time `now`. */
    ghost predicate FoundIn(found: Found, lock: Option<Lease>, now: nat, worked: bool) {
      && (found.Mine? <==> worked && lock.Some? && lock.value.owner == me)
      && (found.Taken? <==> worked && lock.Some? && lock.value.owner != me && lock.value.expiry > now)
    }

    /** Whose the lock is at time `now`: this owner's, someone's whose lease runs, or nobody's. */
    method Inspect(now: nat) returns (found: Found)
      requires contest.Valid() && me < |contest.lens| && contest.model.pcs[me] == Sampled(now)
      modifies this, contest
      ensures contest.Valid() && contest.Since(old(contest.history), old(contest.states)) && calls == old(calls) + 1
      ensures contest.history == old(contest.history) + [Load(me, works(old(calls)))]
      ensures FoundIn(found, old(contest.model.lock), now, works(old(calls)))
      ensures contest.model.clock == old(contest.model.clock)
      ensures contest.Trail(me) == old(contest.Trail(me)) + [Load(me, works(old(calls)))]
      ensures Placed(found)
    {
      var existing := LoadDocument();
      contest.Take(Load(me, works(calls - 1)), me);
      if existing.None? || existing.value == "" {
        return Free;
      }
      LeaseRoundTrip(contest.names[contest.model.lock.value.owner], contest.model.lock.value.expiry);
      var parsed := ParseBody(existing.value);
      assert parsed.Ok?;  // no contender ever writes a text that does not parse
      if parsed.value.0 == contest.names[me] {
        return Mine;
      }
      found := if parsed.value.1 > now then Taken else Free;
    }

    /** Writes the lease and looks whether it stayed. */
    method Claim() returns (outcome: Outcome)
      requires contest.Valid() && me < |contest.lens| && contest.model.pcs[me].Claiming?
      modifies this, contest, contest.store
      ensures AtRest() && contest.Since(old(contest.history), old(contest.states))
      ensures outcome.Leader? <==> contest.model.leads[me].Some?
      ensures Claimed(outcome, old(calls), old(contest.Trail(me)))
    {
      var landed := WriteLease();
      if !landed {
        return StoreRaised;
      }
      contest.Others(me);
      outcome := VerifyLease();
    }

    /** The verification after a fresh claim. */
    method VerifyLease() returns (outcome: Outcome)
      requires contest.Valid() && me < |contest.lens| && contest.model.pcs[me].Wrote?
      modifies this, contest
      ensures AtRest() && contest.Since(old(contest.history), old(contest.states))
      ensures contest.Trail(me) == old(contest.Trail(me)) + [Verify(me, works(old(calls)))]
      ensures calls == old(calls) + 1 && !outcome.StoreRaised?
      ensures outcome.Leader? <==> contest.model.leads[me].Some?
      ensures outcome.Leader? <==> works(old(calls))
                                   && contest.model.lock.Some? && contest.model.lock.value.owner == me
    {
      var verify := LoadDocument();
      contest.Take(Verify(me, works(calls - 1)), me);
      if verify.None? || verify.value == "" {
        return NotLeader;
      }
      LeaseRoundTrip(contest.names[contest.model.lock.value.owner], contest.model.lock.value.expiry);
      var parsed := ParseBody(verify.value);
      if parsed.Err? {
        return StoreRaised;
      }
      return if parsed.value.0 == contest.names[me] then Leader else NotLeader;
    }

    /** The steps of a full release whose first call to the store is call n. */
    ghost function Leaving(n: nat): seq<Action> { [ReleaseLoad(me, works(n)), ReleaseDelete(me, works(n + 1))] }

    lemma LeavingFrom(t: seq<Action>, n: nat)
      ensures t + [ReleaseLoad(me, works(n))] == t + Leaving(n)[..1]
      ensures t + Leaving(n)[..1] + [ReleaseDelete(me, works(n + 1))] == t + Leaving(n)[..2]
    {
    }

    /** Deletes the lock if it is this owner's when loaded, at place `at` of the history; whoever's it then is
        goes. A failed delete is logged only. */
    method Release() returns (ghost at: nat)
      requires AtRest()
      modifies this, contest, contest.store
      ensures AtRest() && contest.Since(old(contest.history), old(contest.states))
      ensures old(calls) < calls <= old(calls) + 2
      ensures contest.Trail(me) == old(contest.Trail(me)) + Leaving(old(calls))[..calls - old(calls)]
      ensures |old(contest.history)| <= at < |contest.history|
      ensures contest.history[at] == ReleaseLoad(me, works(old(calls)))
      ensures var lock := contest.states[at].lock;
              calls == old(calls) + 2 <==> works(old(calls)) && lock.Some? && lock.value.owner == me
      ensures calls == old(calls) + 2 && works(old(calls) + 1) ==> contest.model.lock.None?
    {
      var own;
      own, at := FindOwn();
      LeavingFrom(old(contest.Trail(me)), old(calls));
      if !own {
        return;
      }
      DeleteLock();
    }

    /** Whether the lock reads as this owner's. */
    method FindOwn() returns (own: bool, ghost at: nat)
      requires AtRest()
      modifies this, contest, contest.store
      ensures contest.Valid() && contest.Since(old(contest.history), old(contest.states)) && calls == old(calls) + 1
      ensures contest.Trail(me) == old(contest.Trail(me)) + [ReleaseLoad(me, works(old(calls)))]
      ensures if own then contest.model.pcs[me].Releasing? else contest.model.pcs[me].Idle?
      ensures |old(contest.history)| <= at < |contest.history|
      ensures contest.history[at] == ReleaseLoad(me, works(old(calls)))
      ensures var lock := contest.states[at].lock;
              own <==> works(old(calls)) && lock.Some? && lock.value.owner == me
    {
      contest.Others(me);
      at := |contest.history|;
      var existing := LoadDocument();
      contest.Take(ReleaseLoad(me, works(calls - 1)), me);
      if existing.None? || existing.value == "" {
        return false, at;
      }
      LeaseRoundTrip(contest.names[contest.model.lock.value.owner], contest.model.lock.value.expiry);
      var parsed := ParseBody(existing.value);
      assert parsed.Ok?;
      own := parsed.value.0 == contest.names[me];
    }

    method DeleteLock()
      requires contest.Valid() && me < |contest.lens| && contest.model.pcs[me].Releasing?
      modifies this, contest, contest.store
      ensures AtRest() && contest.Since(old(contest.history), old(contest.states)) && calls == old(calls) + 1
      ensures contest.Trail(me) == old(contest.Trail(me)) + [ReleaseDelete(me, works(old(calls)))]
      ensures works(old(calls)) ==> contest.model.lock.None?
    {
      contest.Others(me);
      var landed := works(calls);
      if landed {
        contest.store.text := None;
      }
      calls := calls + 1;
      contest.Take(ReleaseDelete(me, landed), me);
    }

    /** If no two calls on this lock have ever overlapped and loads have worked, nobody else leads while
        this contender does. */
    lemma SoleLeader(d: nat)
      requires AtRest() && LoadsWork(contest.history) && AllAlone(contest.states)
      requires d < |contest.lens| && Leads(contest.model, me) && Leads(contest.model, d)
      ensures d == me
    {
      AtMostOneLeader(contest.lens, contest.states, contest.history, |contest.history|, me, d);
    }
  }
}
