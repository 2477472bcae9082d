/** The put-then-verify leader lease as interleaved steps of several contenders under one clock that never
    runs backwards. */
module LeaseModel {
  import opened Wrappers

  datatype Lease = Lease(owner: nat, expiry: nat)

  /** Where a contender's `acquire` or `release` call stands. */
  datatype Pc =
    | Idle
    | Sampled(now: nat)                      // `now` read
    | Renewing                               // own lease found; deadline about to be computed
    | Claiming                               // no lease, or an expired one, found; likewise
    | Stamped(expiry: nat, renewing: bool)   // deadline computed; the put is under way
    | Wrote(expiry: nat)                     // lease written; about to verify
    | Releasing                              // own lease found; about to delete

  /** `leads[c]` is the deadline of c's last successful acquire, None once an acquire of c has failed. */
  datatype State = State(clock: nat, lock: Option<Lease>, pcs: seq<Pc>, leads: seq<Option<nat>>)

  datatype Action =
    | Tick(to: nat)
    | Sample(c: nat)
    | Load(c: nat, worked: bool)
    | Stamp(c: nat)
    | Write(c: nat, landed: bool)            // the put returns, or raises without having landed
    | WriteRaises(c: nat)                    // the put lands, but its reply is lost and it raises
    | Verify(c: nat, worked: bool)
    | ReleaseLoad(c: nat, worked: bool)
    | ReleaseDelete(c: nat, landed: bool)
    | Crash(c: nat)                          // c dies, inside a call or between two, and starts afresh

  predicate Init(lens: seq<nat>, s: State) {
    && s.lock == None && |s.pcs| == |s.leads| == |lens|
    && (forall c :: 0 <= c < |lens| ==> s.pcs[c] == Idle && s.leads[c] == None)
  }

  predicate Sized(lens: seq<nat>, s: State) { |s.pcs| == |s.leads| == |lens| }

  predicate Enabled(lens: seq<nat>, s: State, a: Action) {
    && Sized(lens, s)
    && if a.Tick? then s.clock <= a.to
       else
         && a.c < |lens|
         && match a
            case Sample(c) => s.pcs[c].Idle?
            case Load(c, _) => s.pcs[c].Sampled?
            case Stamp(c) => s.pcs[c].Renewing? || s.pcs[c].Claiming?
            case Write(c, _) => s.pcs[c].Stamped?
            case WriteRaises(c) => s.pcs[c].Stamped?
            case Verify(c, _) => s.pcs[c].Wrote?
            case ReleaseLoad(c, _) => s.pcs[c].Idle?
            case ReleaseDelete(c, _) => s.pcs[c].Releasing?
            case Crash(_) => true
  }

  predicate Owns(l: Option<Lease>, c: nat) { l.Some? && l.value.owner == c }

  function AfterLoad(s: State, c: nat, seen: Option<Lease>): Pc
    requires c < |s.pcs| && s.pcs[c].Sampled?
  {
    if Owns(seen, c) then Renewing
    else if seen.Some? && seen.value.expiry > s.pcs[c].now then Idle
    else Claiming
  }

  function Apply(lens: seq<nat>, s: State, a: Action): State
    requires Enabled(lens, s, a)
  {
    match a
    case Tick(to) => s.(clock := to)
    case Sample(c) => s.(pcs := s.pcs[c := Sampled(s.clock)])
    case Load(c, worked) =>
      var next := AfterLoad(s, c, if worked then s.lock else None);
      s.(pcs := s.pcs[c := next], leads := if next.Idle? then s.leads[c := None] else s.leads)
    case Stamp(c) => s.(pcs := s.pcs[c := Stamped(s.clock + lens[c], s.pcs[c].Renewing?)])
    case Write(c, landed) =>
      var Stamped(expiry, renewing) := s.pcs[c];
      if !landed then s.(pcs := s.pcs[c := Idle], leads := s.leads[c := None])
      else if renewing then
        s.(lock := Some(Lease(c, expiry)), pcs := s.pcs[c := Idle], leads := s.leads[c := Some(expiry)])
      else s.(lock := Some(Lease(c, expiry)), pcs := s.pcs[c := Wrote(expiry)])
    case WriteRaises(c) =>
      s.(lock := Some(Lease(c, s.pcs[c].expiry)), pcs := s.pcs[c := Idle], leads := s.leads[c := None])
    case Verify(c, worked) =>
      var won := worked && Owns(s.lock, c);
      s.(pcs := s.pcs[c := Idle], leads := s.leads[c := if won then Some(s.pcs[c].expiry) else None])
    case ReleaseLoad(c, worked) =>
      s.(pcs := s.pcs[c := if worked && Owns(s.lock, c) then Releasing else Idle])
    case ReleaseDelete(c, landed) =>
      s.(lock := if landed then None else s.lock, pcs := s.pcs[c := Idle], leads := s.leads[c := None])
    case Crash(c) => s.(pcs := s.pcs[c := Idle], leads := s.leads[c := None])
  }

  /** The states a run passes through: states[k] is the one acts[k] is taken in. */
  predicate Traced(lens: seq<nat>, states: seq<State>, acts: seq<Action>) {
    && |states| == |acts| + 1
    && forall k {:trigger acts[k]} :: 0 <= k < |acts| ==>
         Enabled(lens, states[k], acts[k]) && states[k + 1] == Apply(lens, states[k], acts[k])
  }

  predicate By(a: Action, c: nat) { !a.Tick? && a.c == c }

  ghost predicate LoadsWork(acts: seq<Action>) {
    forall k :: 0 <= k < |acts| && acts[k].Load? ==> acts[k].worked
  }

  /** c's put lands. */
  predicate Lands(a: Action, c: nat) { a == Write(c, true) || a == WriteRaises(c) }

  predicate Deletes(a: Action) { a.ReleaseDelete? && a.landed }

  ghost predicate NoDeletes(acts: seq<Action>, i: nat, k: nat)
    requires i <= k <= |acts|
  {
    forall j :: i <= j < k ==> !Deletes(acts[j])
  }

  /** c believes it leads: its last acquire said so and its deadline has not passed. */
  predicate Leads(s: State, c: nat)
    requires c < |s.leads|
  {
    s.leads[c].Some? && s.leads[c].value > s.clock
  }
}
