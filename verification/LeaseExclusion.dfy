/** When two contenders can both hold an unexpired lease. */
module LeaseExclusion {
  import opened Wrappers
  import opened LeaseModel

  // ---- traces ----

  lemma {:induction false} ClockMonotone(lens: seq<nat>, states: seq<State>, acts: seq<Action>, i: nat, k: nat)
    requires Traced(lens, states, acts) && i <= k <= |acts|
    ensures states[i].clock <= states[k].clock
    decreases k
  {
    if i < k {
      ClockMonotone(lens, states, acts, i, k - 1);
      assert Enabled(lens, states[k - 1], acts[k - 1]);
    }
  }

  ghost predicate NoneBy(acts: seq<Action>, c: nat, i: nat, k: nat)
    requires i <= k <= |acts|
  {
    forall j :: i <= j < k ==> !By(acts[j], c)
  }

  /** A contender's own place, and what it believes, change only by its own steps. */
  lemma {:induction false} PcStable(lens: seq<nat>, states: seq<State>, acts: seq<Action>, c: nat, i: nat, k: nat)
    requires Traced(lens, states, acts) && c < |lens| && i <= k <= |acts| && NoneBy(acts, c, i, k)
    requires Sized(lens, states[i])
    ensures Sized(lens, states[k]) && states[k].pcs[c] == states[i].pcs[c] && states[k].leads[c] == states[i].leads[c]
    decreases k
  {
    if i < k {
      PcStable(lens, states, acts, c, i, k - 1);
      var a := acts[k - 1];
      assert Enabled(lens, states[k - 1], a);
    }
  }

  // ---- what a load decides ----

  /** A contender's load in full. Its own lease it goes on to renew, run out or not; another's that still runs
      turns it away; after anything else, a failed load included, it goes on to claim. */
  lemma LoadDecides(lens: seq<nat>, s: State, c: nat, worked: bool)
    requires Enabled(lens, s, Load(c, worked))
    ensures var t, now := Apply(lens, s, Load(c, worked)), s.pcs[c].now;
            var mine := worked && s.lock.Some? && s.lock.value.owner == c;
            var running := worked && s.lock.Some? && s.lock.value.owner != c && s.lock.value.expiry > now;
            && t.lock == s.lock && t.clock == s.clock && t.leads == (if running then s.leads[c := None] else s.leads)
            && (t.pcs[c].Renewing? <==> mine)
            && (t.pcs[c].Idle? <==> running)
            && (t.pcs[c].Claiming? <==> !mine && !running)
  {
  }

  /** Every put was stamped: the contender's last own step before it computed the deadline it carries. */
  lemma {:induction false} StampBefore(
    lens: seq<nat>, states: seq<State>, acts: seq<Action>, c: nat, k: nat)
    returns (p: nat)
    requires Traced(lens, states, acts) && Init(lens, states[0]) && k <= |acts| && c < |lens|
    requires Sized(lens, states[k]) && states[k].pcs[c].Stamped?
    ensures p < k && acts[p] == Stamp(c) && NoneBy(acts, c, p + 1, k)
    ensures states[k].pcs[c].expiry == states[p].clock + lens[c]
    decreases k
  {
    var last := acts[k - 1];
    assert Enabled(lens, states[k - 1], last);
    if By(last, c) {
      p := k - 1;
    } else {
      p := StampBefore(lens, states, acts, c, k - 1);
    }
  }

  /** After a landed write a lock that is still there belongs to someone who wrote no earlier, and carries
      the deadline that writer had stamped. Without a delete it is still there. */
  lemma {:induction false} HeldSince(
    lens: seq<nat>, states: seq<State>, acts: seq<Action>, a: nat, w: nat, k: nat)
    returns (p: nat, j: nat)
    requires Traced(lens, states, acts) && Init(lens, states[0]) && w < k <= |acts|
    requires a < |lens| && Lands(acts[w], a)
    ensures NoDeletes(acts, w, k) ==> states[k].lock.Some?
    ensures states[k].lock.Some? ==>
              var held := states[k].lock.value;
              && held.owner < |lens| && w <= j < k && Put(acts, held.owner, p, j)
              && held.expiry == states[p].clock + lens[held.owner]
    decreases k
  {
    var last := acts[k - 1];
    assert Enabled(lens, states[k - 1], last);
    if !last.Tick? && Lands(last, last.c) {
      j := k - 1;
      p := StampBefore(lens, states, acts, last.c, k - 1);
    } else {
      p, j := HeldSince(lens, states, acts, a, w, k - 1);
    }
  }

  /** c computed a deadline at p and its put landed at w. */
  ghost predicate Put(acts: seq<Action>, c: nat, p: nat, w: nat) {
    p < w < |acts| && acts[p] == Stamp(c) && Lands(acts[w], c) && NoneBy(acts, c, p + 1, w)
  }

  ghost predicate Shortest(lens: seq<nat>, a: nat)
    requires a < |lens|
  {
    forall c :: 0 <= c < |lens| ==> lens[a] <= lens[c]
  }

  // ---- the race ----

  /** c's put, stamped at p and landed at w, made its acquire return True at v: at once when renewing,
      otherwise at its verification. */
  ghost predicate Granted(
    lens: seq<nat>, states: seq<State>, acts: seq<Action>, c: nat, p: nat, w: nat, v: nat)
    requires Traced(lens, states, acts)
  {
    && w <= v < |acts| && c < |lens| && Put(acts, c, p, w) && acts[w] == Write(c, true)
    && Sized(lens, states[p])
    && if states[p].pcs[c].Renewing? then v == w
       else w < v && acts[v] == Verify(c, true) && NoneBy(acts, c, w + 1, v) && Owns(states[v].lock, c)
  }

  /** One acquire of c, as far as its put: sample at s, load at l, stamp at p, and the put lands at w. */
  ghost predicate Attempt(acts: seq<Action>, c: nat, s: nat, l: nat, p: nat, w: nat) {
    && s < l < p && Put(acts, c, p, w)
    && acts[s] == Sample(c) && acts[l].Load? && acts[l].c == c
    && NoneBy(acts, c, s + 1, l) && NoneBy(acts, c, l + 1, p)
  }

  /** The places of an attempt that finds its own lease. */
  lemma RenewalPlaces(
    lens: seq<nat>, states: seq<State>, acts: seq<Action>, c: nat, s: nat, l: nat, p: nat, w: nat)
    requires Traced(lens, states, acts) && c < |lens|
    requires Attempt(acts, c, s, l, p, w) && acts[l] == Load(c, true) && acts[w] == Write(c, true)
    requires states[l].lock.Some? && states[l].lock.value.owner == c
    ensures Sized(lens, states[s]) && Sized(lens, states[l + 1]) && Sized(lens, states[p + 1])
    ensures Sized(lens, states[p]) && states[p].pcs[c] == Renewing
    ensures states[l + 1].leads[c] == states[s].leads[c] && states[p + 1].leads[c] == states[s].leads[c]
    ensures Sized(lens, states[w]) && states[w].pcs[c] == Stamped(states[p].clock + lens[c], true)
  {
    assert Enabled(lens, states[s], acts[s]) && Enabled(lens, states[l], acts[l]);
    PcStable(lens, states, acts, c, s + 1, l);
    LoadDecides(lens, states[l], c, true);
    PcStable(lens, states, acts, c, l + 1, p);
    assert Enabled(lens, states[p], acts[p]);
    PcStable(lens, states, acts, c, p + 1, w);
  }

  /** Until its put lands, a contender that renews believes what it believed when it began. */
  lemma {:induction false} RenewalBelief(
    lens: seq<nat>, states: seq<State>, acts: seq<Action>, c: nat, s: nat, l: nat, p: nat, w: nat, k: nat)
    requires Traced(lens, states, acts) && c < |lens|
    requires Attempt(acts, c, s, l, p, w) && acts[l] == Load(c, true) && acts[w] == Write(c, true)
    requires states[l].lock.Some? && states[l].lock.value.owner == c && s <= k <= w
    ensures Sized(lens, states[s]) && Sized(lens, states[k]) && states[k].leads[c] == states[s].leads[c]
  {
    RenewalPlaces(lens, states, acts, c, s, l, p, w);
    assert Enabled(lens, states[s], acts[s]);
    if s < k <= l {
      PcStable(lens, states, acts, c, s + 1, k);
    } else if l < k <= p {
      PcStable(lens, states, acts, c, l + 1, k);
    } else if p < k {
      PcStable(lens, states, acts, c, p + 1, k);
    }
  }

  /** Renewal. An attempt whose load finds the contender's own lease, run out or not, and whose put returns is
      granted; from then on, until its next own step, the contender leads exactly while its clock is before
      the new deadline. A leader whose old lease still runs when the put lands leads in every state since it
      began, so it leads from one deadline to the next without a gap. */
  lemma {:induction false} RenewalLeads(
    lens: seq<nat>, states: seq<State>, acts: seq<Action>, c: nat, s: nat, l: nat, p: nat, w: nat, k: nat)
    requires Traced(lens, states, acts) && c < |lens|
    requires Attempt(acts, c, s, l, p, w) && acts[l] == Load(c, true) && acts[w] == Write(c, true)
    requires states[l].lock.Some? && states[l].lock.value.owner == c
    requires s <= k <= |acts| && (k > w ==> NoneBy(acts, c, w + 1, k))
    ensures Granted(lens, states, acts, c, p, w, w)
    ensures states[w + 1].lock == Some(Lease(c, states[p].clock + lens[c]))
    ensures Sized(lens, states[w]) && Sized(lens, states[k])
    ensures k > w ==> (Leads(states[k], c) <==> states[k].clock < states[p].clock + lens[c])
    ensures k <= w && Leads(states[w], c) ==> Leads(states[k], c)
  {
    RenewalPlaces(lens, states, acts, c, s, l, p, w);
    if k > w {
      PcStable(lens, states, acts, c, w + 1, k);
    } else {
      RenewalBelief(lens, states, acts, c, s, l, p, w, k);
      RenewalBelief(lens, states, acts, c, s, l, p, w, w);
      ClockMonotone(lens, states, acts, k, w);
    }
  }

  /** Someone other than a computed a deadline before `stamped` and landed it between `from` and `to`. */
  ghost predicate LatePut(acts: seq<Action>, a: nat, b: nat, stamped: nat, from: nat, to: nat) {
    exists c: nat, p: nat, w: nat :: c != a && c != b && p < stamped && from < w < to && Put(acts, c, p, w)
  }

  /** Lease exclusion characterised, for any number of contenders. Suppose A's put was granted, and B,
      having sampled the clock before A's deadline, makes its first write after A's. Then B wrote only
      after A had verified. And either B had loaded the lock before A wrote; or, between A's write and B's
      load, a third contender's put landed that it had stamped before A stamped its own; or, in that time,
      a release deleted the lock. No other interleaving lets both in. */
  lemma {:induction false} OnlyThisRace(
    lens: seq<nat>, states: seq<State>, acts: seq<Action>,
    a: nat, ap: nat, aw: nat, av: nat, b: nat, bs: nat, bl: nat, bp: nat, bw: nat)
    requires Traced(lens, states, acts) && Init(lens, states[0]) && LoadsWork(acts)
    requires a != b && b < |lens| && Granted(lens, states, acts, a, ap, aw, av) && Attempt(acts, b, bs, bl, bp, bw)
    requires Shortest(lens, a)
    requires aw < bw && forall k :: aw < k < bw ==> !Lands(acts[k], b)
    requires states[bs].clock < states[ap].clock + lens[a]
    ensures av < bw
    ensures bl < aw || LatePut(acts, a, b, ap, aw, bl) || !NoDeletes(acts, aw, bl)
  {
    if bw < av {
      // A's verification would have found someone else's lease
      var p, j := HeldSince(lens, states, acts, b, bw, av);
      assert false;
    }
    if aw < bl && NoDeletes(acts, aw, bl) {
      var p, c, j := LateHolder(lens, states, acts, a, ap, aw, b, bs, bl, bp, bw);
    }
  }

  /** What B found instead of A's lease: one whose deadline, passed by B's clock, was stamped before A's. */
  lemma LateHolder(
    lens: seq<nat>, states: seq<State>, acts: seq<Action>,
    a: nat, ap: nat, aw: nat, b: nat, bs: nat, bl: nat, bp: nat, bw: nat)
    returns (p: nat, c: nat, j: nat)
    requires Traced(lens, states, acts) && Init(lens, states[0]) && LoadsWork(acts)
    requires a != b && a < |lens| && b < |lens| && Shortest(lens, a)
    requires Put(acts, a, ap, aw) && Attempt(acts, b, bs, bl, bp, bw) && aw < bl && NoDeletes(acts, aw, bl)
    requires forall k :: aw < k < bw ==> !Lands(acts[k], b)
    requires states[bs].clock < states[ap].clock + lens[a]
    ensures c != a && c != b && p < ap && aw < j < bl && Put(acts, c, p, j)
  {
    p, j := HeldSince(lens, states, acts, a, aw, bl);
    c := states[bl].lock.value.owner;
    FoundExpired(lens, states, acts, b, bs, bl, bp, bw);
    assert c != b;
    assert states[bl].lock.value.expiry < states[ap].clock + lens[a];
    if ap <= p { ClockMonotone(lens, states, acts, ap, p); }
    assert p < ap;
    assert !By(acts[ap], c);
  }

  /** A contender that went on to claim after its load found no running lease of anyone else. */
  lemma FoundExpired(
    lens: seq<nat>, states: seq<State>, acts: seq<Action>, b: nat, bs: nat, bl: nat, bp: nat, bw: nat)
    requires Traced(lens, states, acts) && LoadsWork(acts) && b < |lens| && Attempt(acts, b, bs, bl, bp, bw)
    ensures states[bl].lock.Some? ==>
              Owns(states[bl].lock, b) || states[bl].lock.value.expiry <= states[bs].clock
  {
    assert Enabled(lens, states[bs], acts[bs]) && Enabled(lens, states[bl], acts[bl]);
    assert Enabled(lens, states[bp], acts[bp]);
    PcStable(lens, states, acts, b, bs + 1, bl);
    PcStable(lens, states, acts, b, bl + 1, bp);
  }

  lemma NoThird(lens: seq<nat>, states: seq<State>, acts: seq<Action>, a: nat, b: nat, stamped: nat, from: nat, to: nat)
    requires Traced(lens, states, acts) && |lens| == 2 && a != b && a < 2 && b < 2
    ensures !LatePut(acts, a, b, stamped, from, to)
  {
    forall c: nat, p: nat, w: nat | Put(acts, c, p, w) ensures c < 2 {
      assert Enabled(lens, states[w], acts[w]);
    }
  }

  /** Two contenders and no release leave only the first of these. */
  lemma {:induction false} OnlyThisRaceOfTwo(
    lens: seq<nat>, states: seq<State>, acts: seq<Action>,
    a: nat, ap: nat, aw: nat, av: nat, b: nat, bs: nat, bl: nat, bp: nat, bw: nat)
    requires Traced(lens, states, acts) && Init(lens, states[0]) && LoadsWork(acts)
    requires |lens| == 2 && NoDeletes(acts, 0, |acts|)
    requires a != b && b < |lens| && Granted(lens, states, acts, a, ap, aw, av) && Attempt(acts, b, bs, bl, bp, bw)
    requires Shortest(lens, a)
    requires aw < bw && forall k :: aw < k < bw ==> !Lands(acts[k], b)
    requires states[bs].clock < states[ap].clock + lens[a]
    ensures bl < aw && av < bw
  {
    OnlyThisRace(lens, states, acts, a, ap, aw, av, b, bs, bl, bp, bw);
    NoThird(lens, states, acts, a, b, ap, aw, bl);
    assert acts[bl].Load? && acts[aw].Write?;
  }

  // ---- acquires that do not overlap ----

  /** At most one contender is inside a call. */
  ghost predicate Alone(s: State) {
    forall c, d :: 0 <= c < |s.pcs| && 0 <= d < |s.pcs| && !s.pcs[c].Idle? && !s.pcs[d].Idle? ==> c == d
  }

  ghost predicate OthersExpired(s: State, c: nat)
    requires |s.leads| == |s.pcs|
  {
    forall d :: 0 <= d < |s.leads| && d != c ==> !Leads(s, d)
  }

  predicate AboutToClaim(pc: Pc) { pc.Claiming? || (pc.Stamped? && !pc.renewing) }

  predicate FoundOwn(pc: Pc) { pc.Renewing? || pc.Releasing? || (pc.Stamped? && pc.renewing) }

  ghost predicate Exclusive(lens: seq<nat>, s: State) {
    && Sized(lens, s)
    && (forall c :: 0 <= c < |lens| && Leads(s, c) ==>
          Owns(s.lock, c) && s.lock.value.expiry >= s.leads[c].value)
    && (forall c :: 0 <= c < |lens| && s.pcs[c].Sampled? ==> s.pcs[c].now <= s.clock)
    && (forall c :: 0 <= c < |lens| && AboutToClaim(s.pcs[c]) ==> OthersExpired(s, c) && !Leads(s, c))
    && (forall c :: 0 <= c < |lens| && FoundOwn(s.pcs[c]) ==> Owns(s.lock, c))
    && (forall c :: 0 <= c < |lens| && s.pcs[c].Wrote? ==>
          s.lock == Some(Lease(c, s.pcs[c].expiry)) && OthersExpired(s, c))
  }

  lemma ExclusiveTick(lens: seq<nat>, s: State, to: nat)
    requires Exclusive(lens, s) && Enabled(lens, s, Tick(to))
    ensures Exclusive(lens, Apply(lens, s, Tick(to)))
  {
    var t := Apply(lens, s, Tick(to));
    assert forall d :: 0 <= d < |lens| && Leads(t, d) ==> Leads(s, d);
  }

  /** The steps that leave the lock as it is and grant nothing. */
  lemma ExclusiveQuiet(lens: seq<nat>, s: State, a: Action)
    requires Exclusive(lens, s) && Enabled(lens, s, a) && Alone(s) && Alone(Apply(lens, s, a))
    requires !a.Load? && !a.Stamp? && !a.Tick? && !a.Write? && !a.WriteRaises? && !a.Verify? && !a.ReleaseDelete?
    ensures Exclusive(lens, Apply(lens, s, a))
  {
    var t := Apply(lens, s, a);
    assert t.lock == s.lock && t.clock == s.clock;
    if !s.pcs[a.c].Idle? || !t.pcs[a.c].Idle? { OthersIdle(lens, s, t, a.c); }
    assert forall d :: 0 <= d < |lens| && d != a.c ==> Leads(t, d) == Leads(s, d);
    assert Leads(s, a.c) || !Leads(s, a.c);
  }

  lemma ExclusiveStamp(lens: seq<nat>, s: State, c: nat)
    requires Exclusive(lens, s) && Enabled(lens, s, Stamp(c)) && Alone(s)
    ensures Exclusive(lens, Apply(lens, s, Stamp(c)))
  {
    var t := Apply(lens, s, Stamp(c));
    assert t.lock == s.lock && t.clock == s.clock && t.leads == s.leads;
    assert AboutToClaim(t.pcs[c]) == AboutToClaim(s.pcs[c]) && FoundOwn(t.pcs[c]) == FoundOwn(s.pcs[c]);
    assert forall d :: 0 <= d < |lens| ==> Leads(t, d) == Leads(s, d);
  }

  lemma ExclusiveLoad(lens: seq<nat>, s: State, c: nat)
    requires Exclusive(lens, s) && Enabled(lens, s, Load(c, true)) && Alone(s) && Alone(Apply(lens, s, Load(c, true)))
    ensures Exclusive(lens, Apply(lens, s, Load(c, true)))
  {
    var t := Apply(lens, s, Load(c, true));
    OthersIdle(lens, s, t, c);
    assert forall d :: 0 <= d < |lens| && d != c ==> Leads(t, d) == Leads(s, d);
    assert Leads(s, c) || !Leads(s, c);
  }

  lemma ExclusivePut(lens: seq<nat>, s: State, a: Action)
    requires Exclusive(lens, s) && Enabled(lens, s, a) && Alone(s) && Alone(Apply(lens, s, a))
    requires a.Write? || a.WriteRaises? || a.Verify? || a.ReleaseDelete?
    ensures Exclusive(lens, Apply(lens, s, a))
  {
    var t := Apply(lens, s, a);
    OthersIdle(lens, s, t, a.c);
    assert forall d :: 0 <= d < |lens| && d != a.c ==> Leads(t, d) == Leads(s, d);
    assert Leads(s, a.c) || !Leads(s, a.c);
  }

  lemma ExclusiveStep(lens: seq<nat>, s: State, a: Action)
    requires Exclusive(lens, s) && Enabled(lens, s, a) && Alone(s) && Alone(Apply(lens, s, a))
    requires a.Load? ==> a.worked
    ensures Exclusive(lens, Apply(lens, s, a))
  {
    if a.Tick? {
      ExclusiveTick(lens, s, a.to);
    } else if a.Write? || a.WriteRaises? || a.Verify? || a.ReleaseDelete? {
      ExclusivePut(lens, s, a);
    } else if a.Stamp? {
      ExclusiveStamp(lens, s, a.c);
    } else if a.Load? {
      ExclusiveLoad(lens, s, a.c);
    } else {
      ExclusiveQuiet(lens, s, a);
    }
  }

  lemma OthersIdle(lens: seq<nat>, s: State, t: State, c: nat)
    requires Sized(lens, s) && Sized(lens, t) && c < |lens| && Alone(s) && Alone(t)
    requires forall d :: 0 <= d < |lens| && d != c ==> t.pcs[d] == s.pcs[d]
    requires !s.pcs[c].Idle? || !t.pcs[c].Idle?
    ensures forall d :: 0 <= d < |lens| && d != c ==> t.pcs[d].Idle?
  {
  }

  ghost predicate AllAlone(states: seq<State>) { forall k :: 0 <= k < |states| ==> Alone(states[k]) }

  lemma {:induction false} ExclusiveRun(lens: seq<nat>, states: seq<State>, acts: seq<Action>, k: nat)
    requires Traced(lens, states, acts) && Init(lens, states[0]) && LoadsWork(acts) && AllAlone(states)
    requires k <= |acts|
    ensures Exclusive(lens, states[k])
    decreases k
  {
    if k > 0 {
      ExclusiveRun(lens, states, acts, k - 1);
      assert Enabled(lens, states[k - 1], acts[k - 1]);
      ExclusiveStep(lens, states[k - 1], acts[k - 1]);
    }
  }

  /** If no two calls overlap and loads work, at most one contender leads in every reachable state,
      whatever the lease lengths, through renewals, releases, failed writes, writes that land though their
      call raises, lost verifications and contenders that die. */
  lemma AtMostOneLeader(lens: seq<nat>, states: seq<State>, acts: seq<Action>, k: nat, c: nat, d: nat)
    requires Traced(lens, states, acts) && Init(lens, states[0]) && LoadsWork(acts) && AllAlone(states)
    requires k <= |acts| && c < |lens| && d < |lens|
    ensures Sized(lens, states[k])
    ensures Leads(states[k], c) && Leads(states[k], d) ==> c == d
  {
    ExclusiveRun(lens, states, acts, k);
  }

  // ---- what the conditions are needed for ----

  const PAIR: seq<nat> := [30, 30]
  const TRIO: seq<nat> := [30, 30, 30]

  ghost predicate Tame(acts: seq<Action>) { LoadsWork(acts) && NoDeletes(acts, 0, |acts|) }

  /** One more step of a run. */
  lemma Then(lens: seq<nat>, states: seq<State>, acts: seq<Action>, a: Action)
    returns (states': seq<State>, acts': seq<Action>, t: State)
    requires Traced(lens, states, acts) && Enabled(lens, states[|acts|], a)
    ensures Traced(lens, states', acts') && acts' == acts + [a] && states' == states + [t]
    ensures t == Apply(lens, states[|acts|], a) == states'[|acts'|] && states'[0] == states[0]
    ensures LoadsWork(acts) && (a.Load? ==> a.worked) ==> LoadsWork(acts')
    ensures NoDeletes(acts, 0, |acts|) && !Deletes(a) ==> NoDeletes(acts', 0, |acts'|)
    ensures AllAlone(states) && Alone(t) ==> AllAlone(states')
  {
    t := Apply(lens, states[|acts|], a);
    states', acts' := states + [t], acts + [a];
  }

  /** c samples and loads, and goes on to claim: it finds no lock, or one that has expired, or its load
      fails. */
  lemma Looks(lens: seq<nat>, states: seq<State>, acts: seq<Action>, c: nat, loads: bool)
    returns (states': seq<State>, acts': seq<Action>, t: State)
    requires Traced(lens, states, acts) && c < |lens|
    requires var s := states[|acts|];
             && Sized(lens, s) && s.pcs[c].Idle? && !Owns(s.lock, c)
             && (loads && s.lock.Some? ==> s.lock.value.expiry <= s.clock)
    ensures Traced(lens, states', acts') && acts' == acts + [Sample(c), Load(c, loads)]
    ensures t == states'[|acts'|] == states[|acts|].(pcs := states[|acts|].pcs[c := Claiming])
    ensures states'[0] == states[0]
    ensures loads && LoadsWork(acts) ==> LoadsWork(acts')
    ensures NoDeletes(acts, 0, |acts|) ==> NoDeletes(acts', 0, |acts'|)
    ensures AllAlone(states) && AllIdle(states[|acts|]) ==> AllAlone(states')
  {
    states', acts', t := Then(lens, states, acts, Sample(c));
    states', acts', t := Then(lens, states', acts', Load(c, loads));
  }

  lemma Puts(lens: seq<nat>, states: seq<State>, acts: seq<Action>, c: nat)
    returns (states': seq<State>, acts': seq<Action>, t: State)
    requires Traced(lens, states, acts) && c < |lens|
    requires Sized(lens, states[|acts|]) && states[|acts|].pcs[c].Claiming?
    ensures Traced(lens, states', acts') && acts' == acts + [Stamp(c), Write(c, true)]
    ensures var s := states[|acts|];
            var until := s.clock + lens[c];
            t == states'[|acts'|] == s.(lock := Some(Lease(c, until)), pcs := s.pcs[c := Wrote(until)])
    ensures states'[0] == states[0]
    ensures LoadsWork(acts) ==> LoadsWork(acts')
    ensures NoDeletes(acts, 0, |acts|) ==> NoDeletes(acts', 0, |acts'|)
    ensures AllAlone(states) ==> AllAlone(states')
  {
    assert AllAlone(states) ==> Alone(states[|acts|]);
    states', acts', t := Then(lens, states, acts, Stamp(c));
    states', acts', t := Then(lens, states', acts', Write(c, true));
  }

  /** About to claim, c stamps, writes and verifies without a pause, and gets the lease. */
  lemma Claims(lens: seq<nat>, states: seq<State>, acts: seq<Action>, c: nat)
    returns (states': seq<State>, acts': seq<Action>, t: State)
    requires Traced(lens, states, acts) && c < |lens|
    requires Sized(lens, states[|acts|]) && states[|acts|].pcs[c].Claiming?
    ensures Traced(lens, states', acts') && acts' == acts + [Stamp(c), Write(c, true), Verify(c, true)]
    ensures var s := states[|acts|];
            var until := s.clock + lens[c];
            t == states'[|acts'|] == State(s.clock, Some(Lease(c, until)), s.pcs[c := Idle], s.leads[c := Some(until)])
    ensures states'[0] == states[0]
    ensures LoadsWork(acts) ==> LoadsWork(acts')
    ensures NoDeletes(acts, 0, |acts|) ==> NoDeletes(acts', 0, |acts'|)
    ensures AllAlone(states) ==> AllAlone(states')
  {
    states', acts', t := Puts(lens, states, acts, c);
    assert AllAlone(states') ==> Alone(states'[|acts'|]);
    states', acts', t := Then(lens, states', acts', Verify(c, true));
  }

  /** One acquire without a pause. */
  lemma Acquires(lens: seq<nat>, states: seq<State>, acts: seq<Action>, c: nat, loads: bool)
    returns (states': seq<State>, acts': seq<Action>, t: State)
    requires Traced(lens, states, acts) && c < |lens|
    requires var s := states[|acts|];
             && Sized(lens, s) && s.pcs[c].Idle? && !Owns(s.lock, c)
             && (loads && s.lock.Some? ==> s.lock.value.expiry <= s.clock)
    ensures Traced(lens, states', acts')
    ensures acts' == acts + [Sample(c), Load(c, loads)] + [Stamp(c), Write(c, true), Verify(c, true)]
    ensures var s := states[|acts|];
            t == states'[|acts'|]
              == s.(lock := Some(Lease(c, s.clock + lens[c])), leads := s.leads[c := Some(s.clock + lens[c])])
    ensures states'[0] == states[0]
    ensures loads && LoadsWork(acts) ==> LoadsWork(acts')
    ensures NoDeletes(acts, 0, |acts|) ==> NoDeletes(acts', 0, |acts'|)
    ensures AllAlone(states) && AllIdle(states[|acts|]) ==> AllAlone(states')
  {
    states', acts', t := Looks(lens, states, acts, c, loads);
    states', acts', t := Claims(lens, states', acts', c);
    assert t.pcs == states[|acts|].pcs;
  }

  /** c samples, loads and finds its own lease. */
  lemma FindsOwn(lens: seq<nat>, states: seq<State>, acts: seq<Action>, c: nat)
    returns (states': seq<State>, acts': seq<Action>, t: State)
    requires Traced(lens, states, acts) && c < |lens|
    requires var s := states[|acts|];
             Sized(lens, s) && s.pcs[c].Idle? && s.lock.Some? && s.lock.value.owner == c
    ensures Traced(lens, states', acts') && acts' == acts + [Sample(c), Load(c, true)]
    ensures t == states'[|acts'|] == states[|acts|].(pcs := states[|acts|].pcs[c := Renewing])
    ensures states'[0] == states[0]
    ensures LoadsWork(acts) ==> LoadsWork(acts')
    ensures NoDeletes(acts, 0, |acts|) ==> NoDeletes(acts', 0, |acts'|)
    ensures AllAlone(states) && AllIdle(states[|acts|]) ==> AllAlone(states')
  {
    states', acts', t := Then(lens, states, acts, Sample(c));
    states', acts', t := Then(lens, states', acts', Load(c, true));
  }

  lemma Rewrites(lens: seq<nat>, states: seq<State>, acts: seq<Action>, c: nat)
    returns (states': seq<State>, acts': seq<Action>, t: State)
    requires Traced(lens, states, acts) && c < |lens|
    requires Sized(lens, states[|acts|]) && states[|acts|].pcs[c].Renewing?
    ensures Traced(lens, states', acts') && acts' == acts + [Stamp(c), Write(c, true)]
    ensures var s := states[|acts|];
            var until := s.clock + lens[c];
            t == states'[|acts'|]
              == State(s.clock, Some(Lease(c, until)), s.pcs[c := Idle], s.leads[c := Some(until)])
    ensures states'[0] == states[0]
    ensures LoadsWork(acts) ==> LoadsWork(acts')
    ensures NoDeletes(acts, 0, |acts|) ==> NoDeletes(acts', 0, |acts'|)
    ensures AllAlone(states) ==> AllAlone(states')
  {
    assert AllAlone(states) ==> Alone(states[|acts|]);
    states', acts', t := Then(lens, states, acts, Stamp(c));
    states', acts', t := Then(lens, states', acts', Write(c, true));
  }

  /** One renewal without a pause, whether or not the lease has run out. */
  lemma Renews(lens: seq<nat>, states: seq<State>, acts: seq<Action>, c: nat)
    returns (states': seq<State>, acts': seq<Action>, t: State)
    requires Traced(lens, states, acts) && c < |lens|
    requires var s := states[|acts|];
             Sized(lens, s) && s.pcs[c].Idle? && s.lock.Some? && s.lock.value.owner == c
    ensures Traced(lens, states', acts')
    ensures acts' == acts + [Sample(c), Load(c, true)] + [Stamp(c), Write(c, true)]
    ensures var s := states[|acts|];
            t == states'[|acts'|]
              == s.(lock := Some(Lease(c, s.clock + lens[c])), leads := s.leads[c := Some(s.clock + lens[c])])
    ensures states'[0] == states[0]
    ensures LoadsWork(acts) ==> LoadsWork(acts')
    ensures NoDeletes(acts, 0, |acts|) ==> NoDeletes(acts', 0, |acts'|)
    ensures AllAlone(states) && AllIdle(states[|acts|]) ==> AllAlone(states')
  {
    states', acts', t := FindsOwn(lens, states, acts, c);
    states', acts', t := Rewrites(lens, states', acts', c);
    assert t.pcs == states[|acts|].pcs;
  }

  ghost predicate AllIdle(s: State) { forall c :: 0 <= c < |s.pcs| ==> s.pcs[c].Idle? }

  /** Two overlapping acquires can both return True: both load before either writes, and each verifies
      right after its own write. */
  lemma OverlapLetsBothIn(s: State) returns (states: seq<State>, acts: seq<Action>)
    requires Init(PAIR, s)
    ensures Traced(PAIR, states, acts) && states[0] == s && Tame(acts)
    ensures var t := states[|acts|]; |t.leads| == 2 && Leads(t, 0) && Leads(t, 1)
  {
    var t;
    states, acts, t := Looks(PAIR, [s], [], 0, true);
    states, acts, t := Looks(PAIR, states, acts, 1, true);
    states, acts, t := Claims(PAIR, states, acts, 0);
    states, acts, t := Claims(PAIR, states, acts, 1);
  }

  /** A leader that renews before its deadline still leads after it, and a contender that asks then is turned
      away; 0 renews after 20 of its 30 seconds, and 1 asks at 40. */
  lemma RenewedLeaderStays(s: State) returns (states: seq<State>, acts: seq<Action>)
    requires Init(PAIR, s)
    ensures Traced(PAIR, states, acts) && states[0] == s && Tame(acts) && AllAlone(states)
    ensures |acts| >= 2 && acts[|acts| - 2..] == [Sample(1), Load(1, true)]
    ensures var t := states[|acts|];
            |t.leads| == 2 && t.clock == s.clock + 40 && AllIdle(t) && Leads(t, 0) && !Leads(t, 1)
  {
    var t;
    states, acts, t := Acquires(PAIR, [s], [], 0, true);
    states, acts, t := Then(PAIR, states, acts, Tick(s.clock + 20));
    states, acts, t := Renews(PAIR, states, acts, 0);
    states, acts, t := Then(PAIR, states, acts, Tick(s.clock + 40));
    states, acts, t := Then(PAIR, states, acts, Sample(1));
    states, acts, t := Then(PAIR, states, acts, Load(1, true));
  }

  /** The lock of a contender that died after its put keeps the others out until its deadline: 0 dies before it
      can verify, and 1 is turned away one second before the deadline. */
  lemma DeadHolderKeepsLock(s: State) returns (states: seq<State>, acts: seq<Action>)
    requires Init(PAIR, s)
    ensures Traced(PAIR, states, acts) && states[0] == s && Tame(acts) && AllAlone(states)
    ensures |acts| >= 4 && acts[|acts| - 4..] == [Crash(0), Tick(s.clock + 29), Sample(1), Load(1, true)]
    ensures states[|acts|]
         == State(s.clock + 29, Some(Lease(0, s.clock + 30)), [Idle, Idle], [None, None])
  {
    var t;
    states, acts, t := Looks(PAIR, [s], [], 0, true);
    states, acts, t := Puts(PAIR, states, acts, 0);
    states, acts, t := Then(PAIR, states, acts, Crash(0));
    states, acts, t := Then(PAIR, states, acts, Tick(s.clock + 29));
    states, acts, t := Then(PAIR, states, acts, Sample(1));
    states, acts, t := Then(PAIR, states, acts, Load(1, true));
    assert t.pcs == [Idle, Idle] && t.leads == [None, None];
  }

  /** And no longer: 1 gets the lock at the deadline. */
  lemma DeadHolderExpires(s: State) returns (states: seq<State>, acts: seq<Action>)
    requires Init(PAIR, s)
    ensures Traced(PAIR, states, acts) && states[0] == s && Tame(acts) && AllAlone(states)
    ensures var t := states[|acts|];
            |t.leads| == 2 && t.clock == s.clock + 30 && Leads(t, 1) && t.leads[0].None?
  {
    var t;
    states, acts := DeadHolderKeepsLock(s);
    states, acts, t := Then(PAIR, states, acts, Tick(s.clock + 30));
    states, acts, t := Acquires(PAIR, states, acts, 1, true);
  }

  lemma StampsFirst(s: State) returns (states: seq<State>, acts: seq<Action>, t: State)
    requires Init(TRIO, s)
    ensures Traced(TRIO, states, acts) && states[0] == s && Tame(acts) && t == states[|acts|]
    ensures t == s.(clock := s.clock + 8, pcs := s.pcs[2 := Stamped(s.clock + 30, false)])
  {
    states, acts, t := Looks(TRIO, [s], [], 2, true);
    states, acts, t := Then(TRIO, states, acts, Stamp(2));
    states, acts, t := Then(TRIO, states, acts, Tick(s.clock + 8));
  }

  /** A put that is under way while another lease is granted takes that lease's place with its own older
      deadline. Here 2 stamps at once, 0 is granted eight seconds later, then 2's put lands; 1 finds that
      one expired while 0 still leads, and claims, having loaded after 0 wrote. */
  lemma LatePutLetsBothIn(s: State) returns (states: seq<State>, acts: seq<Action>, aw: nat, bl: nat)
    requires Init(TRIO, s)
    ensures Traced(TRIO, states, acts) && states[0] == s && Tame(acts)
    ensures aw < bl < |acts| && acts[aw] == Write(0, true) && acts[bl] == Load(1, true)
    ensures var t := states[|acts|]; |t.leads| == 3 && Leads(t, 0) && Leads(t, 1)
  {
    var t;
    states, acts, t := StampsFirst(s);
    aw := |acts| + 3;
    states, acts, t := Acquires(TRIO, states, acts, 0, true);
    var before := acts;
    assert acts[aw] == Write(0, true);
    states, acts, t := Then(TRIO, states, acts, Write(2, true));
    states, acts, t := Then(TRIO, states, acts, Tick(s.clock + 31));
    bl := |acts| + 1;
    states, acts, t := Acquires(TRIO, states, acts, 1, true);
    assert acts[aw] == before[aw];
  }

  /** A release that has found its own lock deletes whatever is there when its delete lands. Here 0 begins
      to release, its lease runs out, 1 acquires, 0's delete lands and 0 acquires again: no two acquires
      overlap, and both lead. */
  lemma ReleaseLetsBothIn(s: State) returns (states: seq<State>, acts: seq<Action>)
    requires Init(PAIR, s)
    ensures Traced(PAIR, states, acts) && states[0] == s && LoadsWork(acts)
    ensures var t := states[|acts|]; |t.leads| == 2 && Leads(t, 0) && Leads(t, 1)
  {
    var t;
    states, acts, t := Acquires(PAIR, [s], [], 0, true);
    states, acts, t := Then(PAIR, states, acts, ReleaseLoad(0, true));
    states, acts, t := Then(PAIR, states, acts, Tick(s.clock + 30));
    states, acts, t := Acquires(PAIR, states, acts, 1, true);
    states, acts, t := Then(PAIR, states, acts, ReleaseDelete(0, true));
    states, acts, t := Acquires(PAIR, states, acts, 0, true);
  }

  /** A failed load reads as no lock at all, so even calls that do not overlap can then both lead. */
  lemma FailedLoadLetsBothIn(s: State) returns (states: seq<State>, acts: seq<Action>)
    requires Init(PAIR, s)
    ensures Traced(PAIR, states, acts) && states[0] == s && AllAlone(states) && NoDeletes(acts, 0, |acts|)
    ensures var t := states[|acts|]; |t.leads| == 2 && Leads(t, 0) && Leads(t, 1)
  {
    var t;
    states, acts, t := Acquires(PAIR, [s], [], 0, true);
    states, acts, t := Acquires(PAIR, states, acts, 1, false);
  }

  lemma Extend(lens: seq<nat>, states: seq<State>, acts: seq<Action>, a: Action)
    requires Traced(lens, states, acts) && Enabled(lens, states[|acts|], a)
    ensures Traced(lens, states + [Apply(lens, states[|acts|], a)], acts + [a])
  {
  }
}
