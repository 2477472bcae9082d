/** Replay of a Delta transaction log into the set of committed data files. */
module DeltaLog {
  import opened Wrappers
  import opened Text
  import opened S3Uri

  /** One line of a log file. `Malformed` is JSON the code cannot handle: not an object, or a path that is
      no string. */
  datatype Line =
    | Blank
    | NotJson
    | Malformed
    | Action(add: Option<string>, remove: Option<string>)

  datatype LogFile = Unreadable | Readable(lines: seq<Line>)

  function NormalizePath(path: string, bucket: string): string {
    if StartsWith(path, "s3://") then path else "s3://" + bucket + "/" + LStripSlash(path)
  }

  /** The path of a log action stands for the object at l: it is its URI, or it is no s3:// URI and is, after any
      slashes in front, its key in the bucket of the table. */
  ghost predicate Names(path: string, l: Location, bucket: string) {
    || path == "s3://" + l.bucket + "/" + l.key
    || (!("s3://" <= path) && l.bucket == bucket && (l.key == [] || l.key[0] != '/')
        && AfterSlashes(path, l.key))
  }

  ghost predicate AfterSlashes(path: string, key: string) {
    exists n :: 0 <= n <= |path| && path[n..] == key && forall i :: 0 <= i < n ==> path[i] == '/'
  }

  lemma {:induction false} Stripped(path: string, n: nat)
    requires n <= |path| && (forall i :: 0 <= i < n ==> path[i] == '/') && (n == |path| || path[n] != '/')
    ensures LStripSlash(path) == path[n..]
  {
    if n > 0 {
      Stripped(path[1..], n - 1);
    }
  }

  lemma StripsTo(path: string, key: string)
    ensures LStripSlash(path) == key <==> (key == [] || key[0] != '/') && AfterSlashes(path, key)
  {
    if (key == [] || key[0] != '/') && AfterSlashes(path, key) {
      var n :| 0 <= n <= |path| && path[n..] == key && forall i :: 0 <= i < n ==> path[i] == '/';
      Stripped(path, n);
    }
    if LStripSlash(path) == key {
      SlashesGo(path);
    }
  }

  lemma UriInjective(l: Location, m: Location)
    requires '/' !in l.bucket && '/' !in m.bucket
    ensures Uri(l) == Uri(m) <==> l == m
  {
    var a, b := l.bucket + ['/'] + l.key, m.bucket + ['/'] + m.key;
    assert Uri(l) == "s3://" + a && Uri(m) == "s3://" + b;
    assert Uri(l)[5..] == a && Uri(m)[5..] == b;
    SplitJoined(l.bucket, '/', l.key);
    SplitJoined(m.bucket, '/', m.key);
  }

  /** Normalising tells exactly which object a path stands for. */
  lemma NormalizesToNamed(path: string, l: Location, bucket: string)
    requires '/' !in l.bucket && '/' !in bucket
    ensures NormalizePath(path, bucket) == Uri(l) <==> Names(path, l, bucket)
  {
    if !("s3://" <= path) {
      UriInjective(Location(bucket, LStripSlash(path)), l);
      StripsTo(path, l.key);
    }
  }

  predicate Adds(l: Line, p: string, bucket: string) {
    l.Action? && l.add.Some? && NormalizePath(l.add.value, bucket) == p
  }

  predicate Removes(l: Line, p: string, bucket: string) {
    l.Action? && l.remove.Some? && NormalizePath(l.remove.value, bucket) == p
  }

  /** One line: its add, then its remove. */
  function Step(active: set<string>, l: Line, bucket: string): set<string> {
    if !l.Action? then active
    else
      var added := if l.add.Some? then active + {NormalizePath(l.add.value, bucket)} else active;
      if l.remove.Some? then added - {NormalizePath(l.remove.value, bucket)} else added
  }

  function Replay(active: set<string>, lines: seq<Line>, bucket: string): set<string> {
    if lines == [] then active
    else Step(Replay(active, lines[..|lines| - 1], bucket), lines[|lines| - 1], bucket)
  }

  /** Some add of p has no remove of p on its own line or later. */
  ghost predicate StillAdded(lines: seq<Line>, p: string, bucket: string) {
    exists i :: 0 <= i < |lines| && Adds(lines[i], p, bucket)
                && forall j :: i <= j < |lines| ==> !Removes(lines[j], p, bucket)
  }

  /** Action reconciliation: a path is in the result iff it was added and not removed since, or was there
      to begin with and never removed. */
  lemma {:induction false} ReplayReconciles(active: set<string>, lines: seq<Line>, bucket: string, p: string)
    ensures p in Replay(active, lines, bucket) <==>
              || StillAdded(lines, p, bucket)
              || (p in active && forall j :: 0 <= j < |lines| ==> !Removes(lines[j], p, bucket))
  {
    if lines != [] {
      var n := |lines| - 1;
      var init, last := lines[..n], lines[n];
      ReplayReconciles(active, init, bucket, p);
      assert forall j :: 0 <= j < n ==> init[j] == lines[j];
      if Removes(last, p, bucket) {
        assert !StillAdded(lines, p, bucket);
      } else if Adds(last, p, bucket) {
        assert StillAdded(lines, p, bucket);
      } else if StillAdded(init, p, bucket) {
        var i :| 0 <= i < |init| && Adds(init[i], p, bucket)
                 && forall j :: i <= j < |init| ==> !Removes(init[j], p, bucket);
        assert Adds(lines[i], p, bucket);
      } else {
        assert forall i :: 0 <= i < |lines| && Adds(lines[i], p, bucket) ==> i < n && Adds(init[i], p, bucket);
      }
    }
  }

  /** Replaying a log split anywhere is replaying its tail from its head's result. */
  lemma {:induction false} ReplaySplits(active: set<string>, head: seq<Line>, tail: seq<Line>, bucket: string)
    ensures Replay(active, head + tail, bucket) == Replay(Replay(active, head, bucket), tail, bucket)
  {
    if tail == [] {
      assert head + tail == head;
    } else {
      var n := |tail| - 1;
      assert (head + tail)[..|head| + n] == head + tail[..n];
      ReplaySplits(active, head, tail[..n], bucket);
    }
  }

  predicate Touches(lines: seq<Line>, p: string, bucket: string) {
    exists i :: 0 <= i < |lines| && (Adds(lines[i], p, bucket) || Removes(lines[i], p, bucket))
  }

  /** A tail that touches a path decides it; any other tail leaves it as it was. */
  lemma {:induction false} TailDecides(a: set<string>, b: set<string>, tail: seq<Line>, bucket: string, p: string)
    ensures (p in Replay(a, tail, bucket) <==> p in Replay(b, tail, bucket))
       <==> (Touches(tail, p, bucket) || (p in a <==> p in b))
  {
    ReplayReconciles(a, tail, bucket, p);
    ReplayReconciles(b, tail, bucket, p);
    if forall j :: 0 <= j < |tail| ==> !Removes(tail[j], p, bucket) {
      if Touches(tail, p, bucket) {
        var i :| 0 <= i < |tail| && Adds(tail[i], p, bucket);
        assert StillAdded(tail, p, bucket);
      } else {
        assert !StillAdded(tail, p, bucket);
      }
    }
  }

  /** Unreadable log files are skipped. Exactly when skipping the lines in the middle leaves the verdict on
      a path as it is: a later line speaks of the path, or the skipped ones did not change it. */
  lemma {:induction false} SkippingIsHarmless(
    head: seq<Line>, middle: seq<Line>, tail: seq<Line>, bucket: string, p: string)
    ensures (p in Replay({}, head + tail, bucket) <==> p in Replay({}, head + middle + tail, bucket))
       <==> (Touches(tail, p, bucket)
             || (p in Replay({}, head, bucket) <==> p in Replay({}, head + middle, bucket)))
  {
    ReplaySplits({}, head, tail, bucket);
    ReplaySplits({}, head + middle, tail, bucket);
    TailDecides(Replay({}, head, bucket), Replay({}, head + middle, bucket), tail, bucket, p);
  }

  lemma {:induction false} StillAddedJoins(a: seq<Line>, b: seq<Line>, p: string, bucket: string)
    ensures StillAdded(a + b, p, bucket) <==>
              || StillAdded(b, p, bucket)
              || (StillAdded(a, p, bucket) && forall j :: 0 <= j < |b| ==> !Removes(b[j], p, bucket))
  {
    ReplaySplits({}, a, b, bucket);
    ReplayReconciles({}, a + b, bucket, p);
    ReplayReconciles({}, a, bucket, p);
    ReplayReconciles(Replay({}, a, bucket), b, bucket, p);
  }

  // ---- the log as files ----

  function LinesOf(k: string, files: map<string, LogFile>): seq<Line> {
    if k in files && files[k].Readable? then files[k].lines else []
  }

  /** The lines that are replayed: those of the readable files, in file order. */
  function Lines(keys: seq<string>, files: map<string, LogFile>): seq<Line> {
    if keys == [] then [] else Lines(keys[..|keys| - 1], files) + LinesOf(keys[|keys| - 1], files)
  }

  /** File n leaves p added, and no later file removes it. */
  ghost predicate LeftAdded(keys: seq<string>, files: map<string, LogFile>, p: string, bucket: string, n: nat)
    requires n < |keys|
  {
    && StillAdded(LinesOf(keys[n], files), p, bucket)
    && forall m :: n < m < |keys| ==> NeverRemoves(LinesOf(keys[m], files), p, bucket)
  }

  ghost predicate NeverRemoves(lines: seq<Line>, p: string, bucket: string) {
    forall j :: 0 <= j < |lines| ==> !Removes(lines[j], p, bucket)
  }

  lemma LeftAddedSnoc(keys: seq<string>, files: map<string, LogFile>, p: string, bucket: string, n: nat)
    requires n + 1 < |keys|
    ensures LeftAdded(keys, files, p, bucket, n) <==>
              && LeftAdded(keys[..|keys| - 1], files, p, bucket, n)
              && NeverRemoves(LinesOf(keys[|keys| - 1], files), p, bucket)
  {
    var front := keys[..|keys| - 1];
    assert forall m :: n <= m < |front| ==> front[m] == keys[m];
  }

  lemma {:induction false} StillAddedInFiles(keys: seq<string>, files: map<string, LogFile>, p: string, bucket: string)
    ensures StillAdded(Lines(keys, files), p, bucket)
       <==> exists n :: 0 <= n < |keys| && LeftAdded(keys, files, p, bucket, n)
  {
    if keys != [] {
      var front, last := keys[..|keys| - 1], LinesOf(keys[|keys| - 1], files);
      StillAddedInFiles(front, files, p, bucket);
      StillAddedJoins(Lines(front, files), last, p, bucket);
      forall n: nat | n < |front|
        ensures LeftAdded(keys, files, p, bucket, n) <==>
                  LeftAdded(front, files, p, bucket, n) && NeverRemoves(last, p, bucket)
      {
        LeftAddedSnoc(keys, files, p, bucket, n);
      }
      assert LeftAdded(keys, files, p, bucket, |front|) <==> StillAdded(last, p, bucket);
    }
  }

  predicate HasMalformed(lines: seq<Line>) { exists i :: 0 <= i < |lines| && lines[i].Malformed? }

  predicate IsLogKey(k: string) { EndsWith(k, ".json") }

  lemma MalformedJoins(a: seq<Line>, b: seq<Line>)
    ensures HasMalformed(a + b) <==> HasMalformed(a) || HasMalformed(b)
  {
    if i :| 0 <= i < |a| && a[i].Malformed? { assert (a + b)[i].Malformed?; }
    if i :| 0 <= i < |b| && b[i].Malformed? { assert (a + b)[|a| + i].Malformed?; }
  }

  lemma {:induction false} MalformedInFiles(keys: seq<string>, files: map<string, LogFile>)
    ensures HasMalformed(Lines(keys, files)) <==> exists n :: 0 <= n < |keys| && HasMalformed(LinesOf(keys[n], files))
  {
    if keys != [] {
      var front, last := keys[..|keys| - 1], LinesOf(keys[|keys| - 1], files);
      MalformedInFiles(front, files);
      var init := Lines(front, files);
      MalformedJoins(init, last);
      if HasMalformed(init) {
        var n :| 0 <= n < |front| && HasMalformed(LinesOf(front[n], files));
        assert front[n] == keys[n];
      }
      if n :| 0 <= n < |keys| && HasMalformed(LinesOf(keys[n], files)) {
        if n < |front| { assert front[n] == keys[n]; }
      }
    }
  }

  // ---- what the log says of an object ----

  /** A readable log file. */
  ghost predicate InLog(k: string, listing: set<string>, files: map<string, LogFile>) {
    k in listing && (exists q :: k == q + ".json") && k in files && files[k].Readable?
  }

  ghost predicate AddsObject(line: Line, l: Location, bucket: string) {
    line.Action? && line.add.Some? && Names(line.add.value, l, bucket)
  }

  ghost predicate RemovesObject(line: Line, l: Location, bucket: string) {
    line.Action? && line.remove.Some? && Names(line.remove.value, l, bucket)
  }

  /** No line of a file from the i-th on removes the object. */
  ghost predicate KeptFrom(lines: seq<Line>, i: nat, l: Location, bucket: string) {
    forall j :: i <= j < |lines| ==> !RemovesObject(lines[j], l, bucket)
  }

  /** Line i of log file k adds the object; no line from there on in that file removes it, and none of a log
      file with a later name. */
  ghost predicate AddedLast(
    k: string, i: nat, l: Location, bucket: string, listing: set<string>, files: map<string, LogFile>)
  {
    && InLog(k, listing, files) && i < |files[k].lines| && AddsObject(files[k].lines[i], l, bucket)
    && KeptFrom(files[k].lines, i, l, bucket)
    && forall later :: InLog(later, listing, files) && Less(k, later) ==> KeptFrom(files[later].lines, 0, l, bucket)
  }

  /** What being committed means: some line adds the object and nothing later removes it. */
  ghost predicate Committed(l: Location, bucket: string, listing: set<string>, files: map<string, LogFile>) {
    exists k: string, i: nat :: AddedLast(k, i, l, bucket, listing, files)
  }

  ghost predicate SomeMalformed(listing: set<string>, files: map<string, LogFile>) {
    exists k: string, i: nat :: InLog(k, listing, files) && i < |files[k].lines| && files[k].lines[i].Malformed?
  }

  /** The sorted names of the log files. */
  ghost predicate LogKeys(keys: seq<string>, listing: set<string>) {
    Increasing(keys) && Members(keys) == set k | k in listing && IsLogKey(k)
  }

  lemma InLogAt(keys: seq<string>, listing: set<string>, files: map<string, LogFile>, n: nat)
    requires LogKeys(keys, listing) && n < |keys|
    ensures keys[n] in listing
    ensures InLog(keys[n], listing, files) <==> keys[n] in files && files[keys[n]].Readable?
  {
    assert keys[n] in Members(keys);
    Affixes(keys[n], ".json");
  }

  lemma PlaceOf(keys: seq<string>, listing: set<string>, files: map<string, LogFile>, k: string) returns (n: nat)
    requires LogKeys(keys, listing) && InLog(k, listing, files)
    ensures n < |keys| && keys[n] == k && LinesOf(k, files) == files[k].lines
  {
    Affixes(k, ".json");
    assert k in Members(keys);
    n :| n < |keys| && keys[n] == k;
  }

  lemma KeptIsNeverRemoved(lines: seq<Line>, l: Location, bucket: string)
    requires '/' !in l.bucket && '/' !in bucket
    ensures forall i :: 0 <= i < |lines| ==> (AddsObject(lines[i], l, bucket) <==> Adds(lines[i], Uri(l), bucket))
    ensures forall i :: 0 <= i < |lines| ==> (RemovesObject(lines[i], l, bucket) <==> Removes(lines[i], Uri(l), bucket))
  {
    forall i | 0 <= i < |lines| && lines[i].Action? && lines[i].add.Some?
      ensures AddsObject(lines[i], l, bucket) <==> Adds(lines[i], Uri(l), bucket)
    {
      NormalizesToNamed(lines[i].add.value, l, bucket);
    }
    forall i | 0 <= i < |lines| && lines[i].Action? && lines[i].remove.Some?
      ensures RemovesObject(lines[i], l, bucket) <==> Removes(lines[i], Uri(l), bucket)
    {
      NormalizesToNamed(lines[i].remove.value, l, bucket);
    }
  }

  lemma AddedLastAt(
    keys: seq<string>, listing: set<string>, files: map<string, LogFile>, l: Location, bucket: string, n: nat)
    requires '/' !in l.bucket && '/' !in bucket && LogKeys(keys, listing) && n < |keys|
    ensures LeftAdded(keys, files, Uri(l), bucket, n) <==>
              exists i: nat :: AddedLast(keys[n], i, l, bucket, listing, files)
  {
    InLogAt(keys, listing, files, n);
    KeptIsNeverRemoved(LinesOf(keys[n], files), l, bucket);
    if LeftAdded(keys, files, Uri(l), bucket, n) {
      var i: nat :| i < |LinesOf(keys[n], files)| && Adds(LinesOf(keys[n], files)[i], Uri(l), bucket)
                    && forall j :: i <= j < |LinesOf(keys[n], files)| ==>
                                     !Removes(LinesOf(keys[n], files)[j], Uri(l), bucket);
      forall later | InLog(later, listing, files) && Less(keys[n], later)
        ensures KeptFrom(files[later].lines, 0, l, bucket)
      {
        var m := PlaceOf(keys, listing, files, later);
        LessAsymmetric(keys[n], later);
        KeptIsNeverRemoved(files[later].lines, l, bucket);
      }
      assert AddedLast(keys[n], i, l, bucket, listing, files);
    }
    if i: nat :| AddedLast(keys[n], i, l, bucket, listing, files) {
      forall m | n < m < |keys| ensures NeverRemoves(LinesOf(keys[m], files), Uri(l), bucket) {
        InLogAt(keys, listing, files, m);
        KeptIsNeverRemoved(LinesOf(keys[m], files), l, bucket);
      }
    }
  }

  /** The replay of the sorted log files finds exactly the committed objects. */
  lemma {:induction false} ReplayFindsCommitted(
    keys: seq<string>, listing: set<string>, files: map<string, LogFile>, l: Location, bucket: string)
    requires '/' !in l.bucket && '/' !in bucket && LogKeys(keys, listing)
    ensures Uri(l) in Replay({}, Lines(keys, files), bucket) <==> Committed(l, bucket, listing, files)
  {
    ReplayReconciles({}, Lines(keys, files), bucket, Uri(l));
    StillAddedInFiles(keys, files, Uri(l), bucket);
    if n :| 0 <= n < |keys| && LeftAdded(keys, files, Uri(l), bucket, n) {
      AddedLastAt(keys, listing, files, l, bucket, n);
    }
    if k: string, i: nat :| AddedLast(k, i, l, bucket, listing, files) {
      var n := PlaceOf(keys, listing, files, k);
      AddedLastAt(keys, listing, files, l, bucket, n);
    }
  }

  lemma MalformedIff(keys: seq<string>, listing: set<string>, files: map<string, LogFile>)
    requires LogKeys(keys, listing)
    ensures HasMalformed(Lines(keys, files)) <==> SomeMalformed(listing, files)
  {
    MalformedInFiles(keys, files);
    if n :| 0 <= n < |keys| && HasMalformed(LinesOf(keys[n], files)) {
      InLogAt(keys, listing, files, n);
    }
    if k: string, i: nat :| InLog(k, listing, files) && i < |files[k].lines| && files[k].lines[i].Malformed? {
      var n := PlaceOf(keys, listing, files, k);
      assert HasMalformed(LinesOf(keys[n], files));
    }
  }

  /** `delta_committed_paths_s3` on the objects listed under the log prefix. Unreadable files and lines
      that are no JSON are skipped; a malformed action raises. Otherwise an object is in the answer iff some
      add names it and no remove does, on the same line or later. */
  method CommittedPaths(bucket: string, listing: set<string>, files: map<string, LogFile>)
    returns (r: Result<set<string>, string>, keys: seq<string>)
    ensures LogKeys(keys, listing)
    ensures r.Ok? ==> r.value == Replay({}, Lines(keys, files), bucket)
    ensures r.Err? <==> SomeMalformed(listing, files)
    ensures r.Ok? && '/' !in bucket ==>
              forall l: Location :: '/' !in l.bucket ==> (Uri(l) in r.value <==> Committed(l, bucket, listing, files))
  {
    keys := Sorted(set k | k in listing && IsLogKey(k));
    var active: set<string> := {};
    assert keys[..0] == [];
    for n := 0 to |keys|
      invariant active == Replay({}, Lines(keys[..n], files), bucket)
      invariant !HasMalformed(Lines(keys[..n], files))
    {
      ghost var before := Lines(keys[..n], files);
      assert keys[..n + 1][..n] == keys[..n];
      if keys[n] in files && files[keys[n]].Readable? {
        var lines := files[keys[n]].lines;
        assert Lines(keys[..n + 1], files) == before + lines;
        var raised;
        active, raised := ReplayFile(active, lines, bucket);
        ReplaySplits({}, before, lines, bucket);
        MalformedJoins(before, lines);
        if raised {
          assert HasMalformed(LinesOf(keys[n], files));
          MalformedInFiles(keys, files);
          MalformedIff(keys, listing, files);
          return Err("malformed action"), keys;
        }
      } else {
        assert Lines(keys[..n + 1], files) == before + [] == before;
      }
    }
    assert keys[..|keys|] == keys;
    r := Ok(active);
    MalformedIff(keys, listing, files);
    if '/' !in bucket {
      forall l: Location | '/' !in l.bucket ensures Uri(l) in active <==> Committed(l, bucket, listing, files) {
        ReplayFindsCommitted(keys, listing, files, l, bucket);
      }
    }
  }

  method ReplayFile(active0: set<string>, lines: seq<Line>, bucket: string)
    returns (active: set<string>, raised: bool)
    ensures raised <==> HasMalformed(lines)
    ensures !raised ==> active == Replay(active0, lines, bucket)
  {
    active, raised := active0, false;
    assert lines[..0] == [];
    for i := 0 to |lines|
      invariant active == Replay(active0, lines[..i], bucket)
      invariant forall j :: 0 <= j < i ==> !lines[j].Malformed?
    {
      assert lines[..i + 1][..i] == lines[..i];
      if lines[i].Malformed? {
        return active, true;
      }
      if lines[i].Action? {
        if lines[i].add.Some? {
          active := active + {NormalizePath(lines[i].add.value, bucket)};
        }
        if lines[i].remove.Some? {
          active := active - {NormalizePath(lines[i].remove.value, bucket)};
        }
      }
    }
    assert lines[..|lines|] == lines;
  }

  // ---- file names and versions ----

  /** `<prefix>_delta_log/<version as 20 digits>.json` */
  function LogKey(prefix: string, version: nat): string
    requires version < Pow10(20)
  {
    prefix + (Padded(version, 20) + ".json")
  }

  lemma {:induction false} LessSameSuffix(a: string, b: string, suffix: string)
    requires |a| == |b|
    ensures Less(a + suffix, b + suffix) <==> Less(a, b)
  {
    if a == [] {
      assert b == [];
      if Less([] + suffix, [] + suffix) { LessAsymmetric([] + suffix, [] + suffix); }
    } else {
      assert (a + suffix)[1..] == a[1..] + suffix && (b + suffix)[1..] == b[1..] + suffix;
      LessSameSuffix(a[1..], b[1..], suffix);
    }
  }

  /** String order of log file names is version order. */
  lemma {:induction false} LogKeyOrder(prefix: string, m: nat, n: nat)
    requires m < Pow10(20) && n < Pow10(20)
    ensures Less(LogKey(prefix, m), LogKey(prefix, n)) <==> m < n
  {
    LessCommonPrefix(prefix, Padded(m, 20) + ".json", Padded(n, 20) + ".json");
    LessSameSuffix(Padded(m, 20), Padded(n, 20), ".json");
    PaddedOrder(m, n, 20);
  }

  lemma LessIsEarlier(a: string, b: string, prefix: string, m: nat, n: nat)
    requires m < Pow10(20) && n < Pow10(20) && a == LogKey(prefix, m) && b == LogKey(prefix, n) && Less(a, b)
    ensures m < n
  {
    LogKeyOrder(prefix, m, n);
  }

  /** So a sorted list of log files is replayed in version order. */
  lemma {:induction false} SortedIsVersionOrder(
    prefix: string, keys: seq<string>, versions: seq<nat>, i: nat, j: nat)
    requires |keys| == |versions| && Increasing(keys) && i < |keys| && j < |keys|
    requires forall k :: 0 <= k < |keys| ==> versions[k] < Pow10(20) && keys[k] == LogKey(prefix, versions[k])
    ensures i < j <==> versions[i] < versions[j]
  {
    if i < j {
      LessIsEarlier(keys[i], keys[j], prefix, versions[i], versions[j]);
    } else if j < i {
      LessIsEarlier(keys[j], keys[i], prefix, versions[j], versions[i]);
    }
  }

  // ---- relative paths ----

  /** Exactly when an add with a path relative to the table root, as writers of Delta tables record it,
      names the data file it means: the table must lie at the root of its bucket. */
  lemma RelativeAddNamesFile(bucket: string, prefix: string, path: string)
    requires !StartsWith(path, "s3://") && path != [] && path[0] != '/'
    ensures NormalizePath(path, bucket) == Uri(Location(bucket, prefix + path)) <==> prefix == []
  {
    var root := "s3://" + bucket + "/";
    assert NormalizePath(path, bucket) == root + path;
    assert Uri(Location(bucket, prefix + path)) == root + (prefix + path);
    if prefix == [] {
      assert prefix + path == path;
    } else {
      assert |root + path| != |root + (prefix + path)|;
    }
  }

  // ---- the adapter ----

  function RStripSlash(s: string): string {
    if s != [] && s[|s| - 1] == '/' then RStripSlash(s[..|s| - 1]) else s
  }

  /** Bucket and key prefix of a table's log. */
  function LogLocation(tablePath: string): Result<Location, string> {
    var root := ParseS3Uri(RStripSlash(tablePath) + "/", true);
    if root.Err? then root else Ok(root.value.(key := root.value.key + "_delta_log/"))
  }

  lemma {:induction false} RStripSlashes(s: string, slashes: string)
    requires (s == [] || s[|s| - 1] != '/') && forall i :: 0 <= i < |slashes| ==> slashes[i] == '/'
    ensures RStripSlash(s + slashes) == s
  {
    if slashes == [] {
      assert s + slashes == s;
    } else {
      var n := |slashes| - 1;
      assert (s + slashes)[..|s| + n] == s + slashes[..n];
      RStripSlashes(s, slashes[..n]);
    }
  }

  /** The log of the table at a directory of a bucket, or at its root, however many slashes its path ends in. */
  lemma {:induction false} LogPlace(bucket: string, directory: string, slashes: string)
    requires PlainBucket(bucket) && PlainKey(directory) && (directory == [] || directory[|directory| - 1] != '/')
    requires forall i :: 0 <= i < |slashes| ==> slashes[i] == '/'
    ensures LogLocation("s3://" + bucket + slashes) == Ok(Location(bucket, "_delta_log/"))
    ensures directory != [] ==>
              LogLocation(Uri(Location(bucket, directory)) + slashes)
              == Ok(Location(bucket, directory + "/" + "_delta_log/"))
  {
    var top := "s3://" + bucket;
    assert top[|top| - 1] == bucket[|bucket| - 1] && bucket[|bucket| - 1] in bucket;
    RStripSlashes(top, slashes);
    var root := Location(bucket, []);
    assert Uri(root) == top + "/";
    TablePathParses(root);
    assert ParseS3Uri(RStripSlash(top + slashes) + "/", true) == Ok(root);
    assert [] + "_delta_log/" == "_delta_log/";
    if directory != [] {
      DirectoryPlace(bucket, directory, slashes);
    }
  }

  lemma DirectoryPlace(bucket: string, directory: string, slashes: string)
    requires PlainBucket(bucket) && PlainKey(directory) && directory != [] && directory[|directory| - 1] != '/'
    requires forall i :: 0 <= i < |slashes| ==> slashes[i] == '/'
    ensures LogLocation(Uri(Location(bucket, directory)) + slashes)
         == Ok(Location(bucket, directory + "/" + "_delta_log/"))
  {
    var path := Uri(Location(bucket, directory));
    assert path[|path| - 1] == directory[|directory| - 1];
    RStripSlashes(path, slashes);
    var root := Location(bucket, directory + "/");
    assert Uri(root) == path + "/";
    assert forall c :: c in root.key ==> c in directory || c == '/';
    TablePathParses(root);
  }

  /** There is a log to replay, and replaying it raises nothing. */
  ghost predicate HasLog(tablePath: string, listing: Result<set<string>, string>, files: map<string, LogFile>) {
    && "s3://" <= tablePath && LogLocation(tablePath).Ok?
    && listing.Ok? && !SomeMalformed(listing.value, files)
  }

  /** `list_committed_files` of the Delta adapter, given how listing the log went. The seed the adapter was
      built with stands in exactly when there is no log to read or reading it raised. */
  method ListCommittedFiles(
    tablePath: string, seed: set<string>, listing: Result<set<string>, string>, files: map<string, LogFile>)
    returns (committed: set<string>, keys: seq<string>)
    ensures HasLog(tablePath, listing, files) ==>
              && LogKeys(keys, listing.value)
              && committed == Replay({}, Lines(keys, files), LogLocation(tablePath).value.bucket)
    ensures HasLog(tablePath, listing, files) ==>
              forall l: Location :: '/' !in l.bucket ==>
                (Uri(l) in committed
                 <==> Committed(l, LogLocation(tablePath).value.bucket, listing.value, files))
    ensures !HasLog(tablePath, listing, files) ==> committed == seed
  {
    if !StartsWith(tablePath, "s3://") {
      return seed, [];
    }
    var at := LogLocation(tablePath);
    if at.Err? || listing.Err? {
      return seed, [];
    }
    LogBucketIsPlain(tablePath);
    var replayed;
    replayed, keys := CommittedPaths(at.value.bucket, listing.value, files);
    committed := if replayed.Ok? then replayed.value else seed;
  }

  lemma LogBucketIsPlain(tablePath: string)
    requires LogLocation(tablePath).Ok?
    ensures PlainBucket(LogLocation(tablePath).value.bucket)
  {
    ParsedBucketIsPlain(RStripSlash(tablePath) + "/", true);
  }
}
