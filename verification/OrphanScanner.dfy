/** Finding and deleting Parquet files that no committed metadata names. */
module OrphanScanner {
  import opened Wrappers
  import opened Text
  import opened S3Uri
  import DeltaLog

  const BATCH_LIMIT := 1000

  /** A stored object: when it was last written, in seconds, and its size. */
  datatype Object = Object(modified: real, size: nat)

  type Objects = map<Location, Object>

  datatype Candidate = Candidate(uri: string, ageHours: real, size: nat)

  datatype ScanResult = ScanResult(orphanFiles: seq<string>, filesScanned: nat, totalOrphanBytes: nat)

  datatype DeleteResult = DeleteResult(deleted: nat, failed: nat)

  // ---- what a scan selects ----

  predicate IsOrphan(c: Candidate, committed: set<string>, retentionHours: int) {
    c.uri !in committed && c.ageHours >= retentionHours as real
  }

  function Selected(cs: seq<Candidate>, committed: set<string>, retentionHours: int): seq<Candidate> {
    if cs == [] then []
    else
      var init := Selected(cs[..|cs| - 1], committed, retentionHours);
      var last := cs[|cs| - 1];
      if IsOrphan(last, committed, retentionHours) then init + [last] else init
  }

  function Uris(cs: seq<Candidate>): seq<string> { seq(|cs|, i requires 0 <= i < |cs| => cs[i].uri) }

  function Bytes(cs: seq<Candidate>): nat {
    if cs == [] then 0 else Bytes(cs[..|cs| - 1]) + cs[|cs| - 1].size
  }

  lemma SelectOne(cs: seq<Candidate>, n: nat, committed: set<string>, retentionHours: int)
    requires n < |cs|
    ensures var sel := Selected(cs[..n], committed, retentionHours);
            && Selected(cs[..n + 1], committed, retentionHours)
               == (if IsOrphan(cs[n], committed, retentionHours) then sel + [cs[n]] else sel)
            && Uris(sel + [cs[n]]) == Uris(sel) + [cs[n].uri]
            && Bytes(sel + [cs[n]]) == Bytes(sel) + cs[n].size
  {
    assert cs[..n + 1][..n] == cs[..n];
    var sel := Selected(cs[..n], committed, retentionHours);
    assert (sel + [cs[n]])[..|sel|] == sel;
  }

  /** Each orphan is selected as often as it is listed, and nothing else is. */
  lemma {:induction false} SelectedExact(cs: seq<Candidate>, committed: set<string>, retentionHours: int, c: Candidate)
    ensures multiset(Selected(cs, committed, retentionHours))[c]
         == if IsOrphan(c, committed, retentionHours) then multiset(cs)[c] else 0
  {
    if cs != [] {
      SelectedExact(cs[..|cs| - 1], committed, retentionHours, c);
      assert cs == cs[..|cs| - 1] + [cs[|cs| - 1]];
    }
  }

  /** Selecting batch by batch is selecting at once, whatever the cut: batches change nothing. */
  lemma {:induction false} SelectedSplits(
    a: seq<Candidate>, b: seq<Candidate>, committed: set<string>, retentionHours: int)
    ensures Selected(a + b, committed, retentionHours)
         == Selected(a, committed, retentionHours) + Selected(b, committed, retentionHours)
  {
    if b == [] {
      assert a + b == a;
    } else {
      assert (a + b)[..|a| + |b| - 1] == a + b[..|b| - 1];
      SelectedSplits(a, b[..|b| - 1], committed, retentionHours);
    }
  }

  // ---- what a delete hits ----

  datatype Outcome = Deleted | Failed | Skipped

  /** The object a delete of this URI is sent to; None where the delete is refused or never sent. */
  function Target(uri: string): Option<Location> {
    if !StartsWith(uri, "s3://") then None
    else
      var parsed := ParseS3Uri(uri, false);
      if parsed.Err? || parsed.value.key == [] || EndsWith(parsed.value.key, "/") then None
      else Some(parsed.value)
  }

  /** It is an s3:// URI that is read as this object, which is no directory. */
  ghost predicate Means(uri: string, l: Location) {
    "s3://" <= uri && ParseS3Uri(uri, false) == Ok(l) && l.key != [] && l.key[|l.key| - 1] != '/'
  }

  lemma TargetIff(uri: string, l: Location)
    ensures Target(uri) == Some(l) <==> Means(uri, l)
  {
    if l.key != [] { assert l.key[|l.key| - 1..] == [l.key[|l.key| - 1]]; }
  }

  /** One attempted delete. */
  datatype Attempt = Attempt(uri: string, target: Option<Location>, outcome: Outcome)

  predicate Genuine(a: Attempt) {
    && a.target == Target(a.uri)
    && (a.outcome.Skipped? <==> !StartsWith(a.uri, "s3://"))
    && (a.outcome.Deleted? ==> a.target.Some?)
  }

  function Count(attempts: seq<Attempt>, o: Outcome): (n: nat)
    ensures n <= |attempts|
  {
    if attempts == [] then 0
    else Count(attempts[..|attempts| - 1], o) + if attempts[|attempts| - 1].outcome == o then 1 else 0
  }

  /** The objects the landed deletes were sent to. */
  function Hit(attempts: seq<Attempt>): set<Location> {
    if attempts == [] then {}
    else
      var last := attempts[|attempts| - 1];
      Hit(attempts[..|attempts| - 1]) +
      if last.outcome.Deleted? && last.target.Some? then {last.target.value} else {}
  }

  /** Every attempt that was sent somewhere has deleted it. */
  ghost predicate NoneRefused(attempts: seq<Attempt>) {
    forall a :: a in attempts && a.target.Some? ==> a.outcome.Deleted?
  }

  /** Every attempt ends in exactly one of the three ways. */
  lemma {:induction false} CountsAll(attempts: seq<Attempt>)
    ensures Count(attempts, Deleted) + Count(attempts, Failed) + Count(attempts, Skipped) == |attempts|
  {
    if attempts != [] {
      CountsAll(attempts[..|attempts| - 1]);
    }
  }

  /** An object is hit iff some landed delete was sent to it. When none failed and every target belongs to an
      s3:// URI, that is iff some attempt names it. */
  lemma {:induction false} HitIff(attempts: seq<Attempt>, l: Location)
    requires forall a :: a in attempts ==> (a.outcome.Skipped? ==> a.target.None?)
    ensures l in Hit(attempts) <==> exists a :: a in attempts && a.outcome.Deleted? && a.target == Some(l)
    ensures Count(attempts, Failed) == 0 ==>
              (l in Hit(attempts) <==> exists a :: a in attempts && a.target == Some(l))
  {
    if attempts != [] {
      var init, last := attempts[..|attempts| - 1], attempts[|attempts| - 1];
      assert attempts == init + [last];
      HitIff(init, l);
    }
  }

  /** A delete of a listed Parquet object is sent to that very object exactly when its key is plain. */
  lemma TargetOfListed(l: Location)
    requires PlainBucket(l.bucket) && EndsWith(l.key, ".parquet")
    ensures Target(Uri(l)) == Some(l) <==> PlainKey(l.key)
    ensures StartsWith(Uri(l), "s3://")
  {
    UriRoundTrip(l);
    assert l.key[|l.key| - 1] == ".parquet"[7];
    assert !EndsWith(l.key, "/");
  }

  // ---- storage ----

  /** Whether its n-th call works is decided outside. */
  class Storage {
    const works: nat -> bool
    var calls: nat
    var objects: Objects

    constructor (works: nat -> bool, objects: Objects)
      ensures this.works == works && calls == 0 && this.objects == objects
    {
      this.works, calls, this.objects := works, 0, objects;
    }

    ghost predicate NextWorks()
      reads this`calls
    {
      works(calls)
    }

    ghost predicate AlwaysWorks() { forall n :: works(n) }

    /** One listing of a prefix, in key order; raises when it does not work. */
    method List(bucket: string, prefix: string) returns (r: Result<seq<string>, string>)
      modifies this`calls
      ensures r.Ok? == old(NextWorks())
      ensures r.Ok? ==> Increasing(r.value) && Members(r.value) == KeysUnder(objects, bucket, prefix)
    {
      var ok := works(calls);
      calls := calls + 1;
      if !ok {
        return Err("listing failed");
      }
      var keys := Sorted(KeysUnder(objects, bucket, prefix));
      r := Ok(keys);
    }

    /** Deletes one object, there or not; raises when it does not work. */
    method DeleteObject(l: Location) returns (ok: bool)
      modifies this
      ensures ok == old(NextWorks())
      ensures objects == if ok then old(objects) - {l} else old(objects)
    {
      ok := works(calls);
      calls := calls + 1;
      if ok {
        objects := objects - {l};
      }
    }
  }

  function KeysUnder(objects: Objects, bucket: string, prefix: string): set<string> {
    set l | l in objects && l.bucket == bucket && StartsWith(l.key, prefix) :: l.key
  }

  /** The listed keys that end in .parquet. */
  function ParquetKeys(all: seq<string>): seq<string> {
    if all == [] then []
    else
      var init := ParquetKeys(all[..|all| - 1]);
      if EndsWith(all[|all| - 1], ".parquet") then init + [all[|all| - 1]] else init
  }

  lemma {:induction false} ParquetKeysExact(all: seq<string>)
    requires Increasing(all)
    ensures Increasing(ParquetKeys(all))
    ensures forall k :: k in ParquetKeys(all) <==> k in all && EndsWith(k, ".parquet")
  {
    if all != [] {
      var init, last := all[..|all| - 1], all[|all| - 1];
      ParquetKeysExact(init);
      assert all == init + [last];
      assert forall k :: k in init ==> Less(k, last);
    }
  }

  /** A Parquet object under a prefix. */
  ghost predicate IsParquet(l: Location, bucket: string, prefix: string) {
    l.bucket == bucket && prefix <= l.key && exists q :: l.key == q + ".parquet"
  }

  function AgeHours(o: Object, now: real): real { (now - o.modified) / 3600.0 }

  function CandidateOf(l: Location, o: Object, now: real): Candidate {
    Candidate(Uri(l), AgeHours(o, now), o.size)
  }

  /** The candidates are the Parquet objects under the prefix, each once. */
  ghost predicate Lists(
    cs: seq<Candidate>, keys: seq<string>, objects: Objects, bucket: string, prefix: string, now: real)
  {
    && |cs| == |keys| && Increasing(keys)
    && (forall k :: k in keys <==> Location(bucket, k) in objects && IsParquet(Location(bucket, k), bucket, prefix))
    && forall i :: 0 <= i < |cs| ==> Describes(cs[i], bucket, keys[i], objects[Location(bucket, keys[i])], now)
  }

  /** The URI, the age in hours and the size of a listed object. */
  ghost predicate Describes(c: Candidate, bucket: string, key: string, o: Object, now: real) {
    c.uri == "s3://" + bucket + "/" + key && c.ageHours * 3600.0 == now - o.modified && c.size == o.size
  }

  /** Every Parquet key under the prefix survives the trip through a URI. */
  ghost predicate PlainKeys(objects: Objects, bucket: string, prefix: string) {
    forall l :: l in objects && IsParquet(l, bucket, prefix) ==> PlainKey(l.key)
  }

  /** Last written at least the retention ago; times are in seconds. */
  ghost predicate PastRetention(o: Object, now: real, retentionHours: int) {
    now - o.modified >= 3600.0 * retentionHours as real
  }

  lemma AgeInHours(c: Candidate, bucket: string, key: string, o: Object, now: real, retentionHours: int)
    requires Describes(c, bucket, key, o, now)
    ensures c.ageHours >= retentionHours as real <==> PastRetention(o, now, retentionHours)
  {
  }

  /** What ought to be deleted: old Parquet objects under the prefix that no commit names. */
  ghost predicate Disposable(l: Location, objects: Objects, bucket: string, prefix: string, now: real,
                             committed: set<string>, retentionHours: int) {
    && l in objects && IsParquet(l, bucket, prefix)
    && "s3://" + l.bucket + "/" + l.key !in committed && PastRetention(objects[l], now, retentionHours)
  }

  lemma DisposableIsTarget(
    cs: seq<Candidate>, keys: seq<string>, objects: Objects, bucket: string, prefix: string, now: real,
    committed: set<string>, retentionHours: int, l: Location)
    requires PlainBucket(bucket) && Lists(cs, keys, objects, bucket, prefix, now)
    requires PlainKeys(objects, bucket, prefix)
    requires Disposable(l, objects, bucket, prefix, now, committed, retentionHours)
    ensures exists u :: u in Uris(Selected(cs, committed, retentionHours)) && Target(u) == Some(l)
  {
    var sel := Selected(cs, committed, retentionHours);
    var i :| 0 <= i < |keys| && keys[i] == l.key;
    assert l == Location(bucket, keys[i]);
    AgeInHours(cs[i], bucket, keys[i], objects[l], now, retentionHours);
    SelectedExact(cs, committed, retentionHours, cs[i]);
    var j :| 0 <= j < |sel| && sel[j] == cs[i];
    Affixes(l.key, ".parquet");
    TargetOfListed(l);
    assert Uris(sel)[j] == Uri(l);
  }

  lemma SelectedIsListed(
    cs: seq<Candidate>, keys: seq<string>, objects: Objects, bucket: string, prefix: string, now: real,
    committed: set<string>, retentionHours: int, u: string)
    returns (i: nat)
    requires Lists(cs, keys, objects, bucket, prefix, now)
    requires u in Uris(Selected(cs, committed, retentionHours))
    ensures i < |cs| && cs[i].uri == u && IsOrphan(cs[i], committed, retentionHours) && keys[i] in keys
  {
    var sel := Selected(cs, committed, retentionHours);
    var j :| 0 <= j < |sel| && sel[j].uri == u;
    SelectedExact(cs, committed, retentionHours, sel[j]);
    assert sel[j] in multiset(sel);
    assert sel[j] in multiset(cs);
    i :| i < |cs| && cs[i] == sel[j];
  }

  /** With plain keys, the deletes of a scan's output go to exactly the disposable objects. */
  lemma {:induction false} TargetsAreDisposable(
    cs: seq<Candidate>, keys: seq<string>, objects: Objects, bucket: string, prefix: string, now: real,
    committed: set<string>, retentionHours: int, l: Location)
    requires PlainBucket(bucket) && Lists(cs, keys, objects, bucket, prefix, now)
    requires PlainKeys(objects, bucket, prefix)
    ensures Disposable(l, objects, bucket, prefix, now, committed, retentionHours)
       <==> exists u :: u in Uris(Selected(cs, committed, retentionHours)) && Target(u) == Some(l)
  {
    if Disposable(l, objects, bucket, prefix, now, committed, retentionHours) {
      DisposableIsTarget(cs, keys, objects, bucket, prefix, now, committed, retentionHours, l);
    }
    if u :| u in Uris(Selected(cs, committed, retentionHours)) && Target(u) == Some(l) {
      var i := SelectedIsListed(cs, keys, objects, bucket, prefix, now, committed, retentionHours, u);
      var listed := Location(bucket, keys[i]);
      Affixes(listed.key, ".parquet");
      TargetOfListed(listed);
      assert l == listed;
      AgeInHours(cs[i], bucket, keys[i], objects[l], now, retentionHours);
    }
  }

  lemma QueryCut(live: string, rest: string)
    requires PlainKey(live) && forall c :: c in rest ==> c !in {'#', '\t', '\r', '\n'}
    ensures KeySeen(live + ['?'] + rest) == live
  {
    var k := live + ['?'] + rest;
    forall c | c in k ensures c != '#' && !Unsafe(c) {
      assert c in live || c == '?' || c in rest;
    }
    assert DropUnsafe(k) == k && '#' !in k;
    assert Before(k, '#') == k;
    BeforeJoined(live, '?', rest);
  }

  /** Why the keys must be plain: whatever follows a question mark in an orphan's key, its delete is sent to
      the object named by what precedes it, which may well be committed. */
  lemma OrphanDeleteHitsOther(bucket: string, live: string, rest: string)
    requires PlainBucket(bucket) && PlainKey(live) && EndsWith(live, ".parquet")
    requires forall c :: c in rest ==> c !in {'#', '\t', '\r', '\n'}
    ensures Target(Uri(Location(bucket, live + ['?'] + rest))) == Some(Location(bucket, live))
  {
    var k := live + ['?'] + rest;
    UriParses(Location(bucket, k));
    QueryCut(live, rest);
    TargetOfListed(Location(bucket, live));
    UriParses(Location(bucket, live));
    assert StartsWith(Uri(Location(bucket, k)), "s3://");
  }

  lemma {:induction false} BeforeJoined(a: string, c: char, b: string)
    requires c !in a
    ensures Before(a + [c] + b, c) == a
  {
    if a != [] {
      assert (a + [c] + b)[1..] == a[1..] + [c] + b;
      BeforeJoined(a[1..], c, b);
      assert a == [a[0]] + a[1..];
    }
  }

  // ---- the scanner ----

  class OrphanScanner {
    const retentionHours: int
    const batchSize: nat
    const storage: Storage

    ghost predicate Valid() { 1 <= batchSize <= BATCH_LIMIT }

    constructor (retentionHours: int, batchSize: nat, storage: Storage)
      requires 1 <= batchSize <= BATCH_LIMIT
      ensures Valid()
      ensures this.retentionHours == retentionHours && this.batchSize == batchSize && this.storage == storage
    {
      this.retentionHours := retentionHours;
      this.batchSize := batchSize;
      this.storage := storage;
    }

    /** `list_parquet_candidates`: every listed key that ends in .parquet, with its age and size. */
    method ListParquetCandidates(tablePath: string, now: real)
      returns (r: Result<seq<Candidate>, string>, ghost keys: seq<string>)
      modifies storage`calls
      ensures r.Ok? <==> ParseS3Uri(tablePath, true).Ok? && old(storage.NextWorks())
      ensures r.Ok? ==>
                var at := ParseS3Uri(tablePath, true).value;
                Lists(r.value, keys, storage.objects, at.bucket, at.key, now)
    {
      keys := [];
      var parsed := ParseS3Uri(tablePath, true);
      if parsed.Err? {
        return Err(parsed.error), [];
      }
      var bucket, prefix := parsed.value.bucket, parsed.value.key;
      var listing := storage.List(bucket, prefix);
      if listing.Err? {
        return Err(listing.error), [];
      }
      assert forall k :: k in listing.value <==> k in Members(listing.value);
      forall k ensures EndsWith(k, ".parquet") <==> exists q :: k == q + ".parquet" {
        Affixes(k, ".parquet");
      }
      var out;
      out, keys := FilterParquet(bucket, listing.value, now);
      r := Ok(out);
    }

    /** The candidates among listed keys. */
    method FilterParquet(bucket: string, all: seq<string>, now: real)
      returns (out: seq<Candidate>, ghost keys: seq<string>)
      requires Increasing(all) && forall k :: k in all ==> Location(bucket, k) in storage.objects
      ensures |out| == |keys| && Increasing(keys)
      ensures forall k :: k in keys <==> k in all && EndsWith(k, ".parquet")
      ensures forall i :: 0 <= i < |keys| ==>
                Describes(out[i], bucket, keys[i], storage.objects[Location(bucket, keys[i])], now)
    {
      out, keys := [], [];
      ParquetKeysExact(all);
      assert all[..0] == [];
      for n := 0 to |all|
        invariant keys == ParquetKeys(all[..n]) && |out| == |keys|
        invariant forall i :: 0 <= i < |keys| ==> keys[i] in all
        invariant forall i :: 0 <= i < |keys| ==>
                    Describes(out[i], bucket, keys[i], storage.objects[Location(bucket, keys[i])], now)
      {
        assert all[..n + 1][..n] == all[..n];
        if EndsWith(all[n], ".parquet") {
          out := out + [CandidateOf(Location(bucket, all[n]), storage.objects[Location(bucket, all[n])], now)];
          keys := keys + [all[n]];
        }
      }
      assert all[..|all|] == all;
    }

    /** `scan` once the candidates and the adapter's committed set are at hand. */
    method Scan(candidates: seq<Candidate>, committed: set<string>) returns (r: ScanResult)
      requires Valid()
      ensures r.orphanFiles == Uris(Selected(candidates, committed, retentionHours))
      ensures r.filesScanned == |candidates|
      ensures r.totalOrphanBytes == Bytes(Selected(candidates, committed, retentionHours))
    {
      var orphanFiles: seq<string> := [];
      var totalBytes, processed, batchStart := 0, 0, 0;
      while batchStart < |candidates|
        invariant processed == if batchStart < |candidates| then batchStart else |candidates|
        invariant orphanFiles == Uris(Selected(candidates[..processed], committed, retentionHours))
        invariant totalBytes == Bytes(Selected(candidates[..processed], committed, retentionHours))
      {
        var stop := if batchStart + batchSize < |candidates| then batchStart + batchSize else |candidates|;
        var batch := candidates[batchStart..stop];
        processed := processed + |batch|;
        for i := 0 to |batch|
          invariant orphanFiles == Uris(Selected(candidates[..batchStart + i], committed, retentionHours))
          invariant totalBytes == Bytes(Selected(candidates[..batchStart + i], committed, retentionHours))
        {
          SelectOne(candidates, batchStart + i, committed, retentionHours);
          if batch[i].uri !in committed && batch[i].ageHours >= retentionHours as real {
            orphanFiles := orphanFiles + [batch[i].uri];
            totalBytes := totalBytes + batch[i].size;
          }
        }
        batchStart := batchStart + batchSize;
      }
      assert candidates[..|candidates|] == candidates;
      r := ScanResult(orphanFiles, processed, totalBytes);
    }

    method ResolveDelete(uri: string) returns (o: Outcome, ghost a: Attempt)
      modifies storage
      ensures a == Attempt(uri, a.target, o) && Genuine(a)
      ensures o.Deleted? <==> a.target.Some? && old(storage.NextWorks())
      ensures storage.objects == if o.Deleted? then old(storage.objects) - {a.target.value} else old(storage.objects)
    {
      if !StartsWith(uri, "s3://") {
        return Skipped, Attempt(uri, None, Skipped);
      }
      var parsed := ParseS3Uri(uri, false);
      if parsed.Err? || parsed.value.key == [] || EndsWith(parsed.value.key, "/") {
        return Failed, Attempt(uri, None, Failed);
      }
      var ok := storage.DeleteObject(parsed.value);
      o := if ok then Deleted else Failed;
      a := Attempt(uri, Some(parsed.value), o);
    }

    /** One batch: the URIs from `from` up to `stop`, those before having been attempted. */
    method DeleteBatch(
      uris: seq<string>, from: nat, stop: nat, deleted0: nat, failed0: nat,
      ghost earlier: seq<Attempt>, ghost origin: Objects)
      returns (deleted: nat, failed: nat, ghost attempts: seq<Attempt>)
      requires from <= stop <= |uris|
      requires Booked(uris, from, earlier, deleted0, failed0, origin, storage.objects)
      requires storage.AlwaysWorks() ==> NoneRefused(earlier)
      modifies storage
      ensures Booked(uris, stop, attempts, deleted, failed, origin, storage.objects)
      ensures storage.AlwaysWorks() ==> NoneRefused(attempts)
    {
      deleted, failed, attempts := deleted0, failed0, earlier;
      for i := from to stop
        invariant Booked(uris, i, attempts, deleted, failed, origin, storage.objects)
        invariant storage.AlwaysWorks() ==> NoneRefused(attempts)
      {
        ghost var objects := storage.objects;
        var o, a := ResolveDelete(uris[i]);
        AttemptOne(uris, i, attempts, deleted, failed, origin, objects, a, storage.objects);
        attempts := attempts + [a];
        match o
        case Deleted => deleted := deleted + 1;
        case Failed => failed := failed + 1;
        case Skipped =>
      }
    }

    /** `delete_orphans`: every URI is tried once, in order; a failure is counted and the loop goes on. */
    method DeleteOrphans(orphanFiles: seq<string>) returns (r: DeleteResult, ghost attempts: seq<Attempt>)
      requires Valid()
      modifies storage
      ensures Attempted(orphanFiles, attempts)
      ensures r == DeleteResult(Count(attempts, Deleted), Count(attempts, Failed))
      ensures r.deleted + r.failed + Count(attempts, Skipped) == |orphanFiles|
      ensures storage.objects == old(storage.objects) - Hit(attempts)
      ensures storage.AlwaysWorks() ==> NoneRefused(attempts)
      ensures forall l :: l in old(storage.objects) && l !in storage.objects ==> Asked(orphanFiles, l)
      ensures storage.AlwaysWorks() ==> forall l :: Asked(orphanFiles, l) ==> l !in storage.objects
    {
      var deleted, failed, batchStart := 0, 0, 0;
      attempts := [];
      ghost var done := 0;
      while batchStart < |orphanFiles|
        invariant done == if batchStart < |orphanFiles| then batchStart else |orphanFiles|
        invariant storage.AlwaysWorks() ==> NoneRefused(attempts)
        invariant Booked(orphanFiles, done, attempts, deleted, failed, old(storage.objects), storage.objects)
      {
        var stop := if batchStart + batchSize < |orphanFiles| then batchStart + batchSize else |orphanFiles|;
        deleted, failed, attempts :=
          DeleteBatch(orphanFiles, batchStart, stop, deleted, failed, attempts, old(storage.objects));
        batchStart, done := batchStart + batchSize, stop;
      }
      assert orphanFiles[..|orphanFiles|] == orphanFiles;
      CountsAll(attempts);
      forall l ensures l in Hit(attempts) ==> Asked(orphanFiles, l)
        ensures NoneRefused(attempts) && Asked(orphanFiles, l) ==> l in Hit(attempts)
      {
        AskedIff(orphanFiles, attempts, l);
      }
      r := DeleteResult(deleted, failed);
    }

    /** `scan_orphans(..., delete=True)`. When every Parquet key under the table path is plain, nothing but
        disposable objects goes: no object the commits name, none younger than the retention, none outside
        the table path, and none that is no Parquet file. When moreover no delete failed, all of them go;
        and none fails while the storage works. */
    method ScanOrphans(tablePath: string, now: real, committed: set<string>)
      returns (r: Result<(ScanResult, DeleteResult), string>, ghost candidates: seq<Candidate>, ghost keys: seq<string>)
      requires Valid()
      modifies storage
      ensures r.Err? ==> storage.objects == old(storage.objects)
      ensures forall l :: l in storage.objects ==>
                l in old(storage.objects) && storage.objects[l] == old(storage.objects)[l]
      ensures StartsWith(tablePath, "s3://") ==>
                (r.Ok? <==> ParseS3Uri(tablePath, true).Ok? && old(storage.NextWorks()))
      ensures StartsWith(tablePath, "s3://") && r.Ok? && storage.AlwaysWorks() ==>
                var at := ParseS3Uri(tablePath, true).value;
                PlainKeys(old(storage.objects), at.bucket, at.key) ==> r.value.1.failed == 0
      ensures StartsWith(tablePath, "s3://") && r.Ok? ==>
                var at := ParseS3Uri(tablePath, true).value;
                var sel := Selected(candidates, committed, retentionHours);
                && Lists(candidates, keys, old(storage.objects), at.bucket, at.key, now)
                && r.value.0 == ScanResult(Uris(sel), |candidates|, Bytes(sel))
                && r.value.1.deleted + r.value.1.failed == |sel|
      ensures StartsWith(tablePath, "s3://") && r.Ok? ==>
                var at := ParseS3Uri(tablePath, true).value;
                PlainKeys(old(storage.objects), at.bucket, at.key) ==>
                  (forall l :: l in old(storage.objects) && l !in storage.objects ==>
                    Disposable(l, old(storage.objects), at.bucket, at.key, now, committed, retentionHours))
                  && (r.value.1.failed == 0 ==> forall l :: l in old(storage.objects) ==>
                    (l !in storage.objects <==>
                      Disposable(l, old(storage.objects), at.bucket, at.key, now, committed, retentionHours)))
      ensures !StartsWith(tablePath, "s3://") ==>
                r == Ok((ScanResult([], 0, 0), DeleteResult(0, 0))) && storage.objects == old(storage.objects)
    {
      var found: seq<Candidate> := [];
      keys := [];
      if StartsWith(tablePath, "s3://") {
        var listing;
        listing, keys := ListParquetCandidates(tablePath, now);
        if listing.Err? {
          return Err(listing.error), [], [];
        }
        found := listing.value;
      }
      candidates := found;
      var scan := Scan(found, committed);
      ghost var before := storage.objects;
      var result, attempts := DeleteOrphans(scan.orphanFiles);
      if StartsWith(tablePath, "s3://") {
        ghost var at := ParseS3Uri(tablePath, true).value;
        ParsedBucketIsPlain(tablePath, true);
        NoneSkipped(candidates, committed, retentionHours, attempts);
        if PlainKeys(before, at.bucket, at.key) {
          AllHaveTargets(candidates, keys, before, at.bucket, at.key, now, committed, retentionHours, attempts);
          forall l ensures l in Hit(attempts) ==>
              Disposable(l, before, at.bucket, at.key, now, committed, retentionHours)
            ensures result.failed == 0 && Disposable(l, before, at.bucket, at.key, now, committed, retentionHours) ==>
              l in Hit(attempts)
          {
            TargetsAreDisposable(candidates, keys, before, at.bucket, at.key, now, committed, retentionHours, l);
            AttemptedTargets(scan.orphanFiles, attempts, l);
          }
        }
      }
      r := Ok((scan, result));
    }

    /** An old Parquet object under the table path that the log does not name any more. */
    ghost predicate Unnamed(
      l: Location, objects: Objects, at: Location, now: real, bucket: string,
      log: set<string>, files: map<string, DeltaLog.LogFile>)
    {
      && l in objects && IsParquet(l, at.bucket, at.key) && PastRetention(objects[l], now, retentionHours)
      && !DeltaLog.Committed(l, bucket, log, files)
    }

    /** The same for a Delta table, whose adapter replays the log: `listing` and `files` are what listing and
        reading the log gave. With a log that could be listed and has no malformed line, and plain keys, no
        Parquet object goes that some add in the log names, by URI or by key, and no remove on that line or
        later does, and all other objects past retention do when no delete failed. */
    method ScanDeltaOrphans(
      tablePath: string, now: real, seed: set<string>,
      listing: Result<set<string>, string>, files: map<string, DeltaLog.LogFile>)
      returns (r: Result<(ScanResult, DeleteResult), string>)
      requires Valid()
      modifies storage
      ensures r.Err? ==> storage.objects == old(storage.objects)
      ensures forall l :: l in storage.objects ==>
                l in old(storage.objects) && storage.objects[l] == old(storage.objects)[l]
      ensures StartsWith(tablePath, "s3://") && r.Ok? ==> ParseS3Uri(tablePath, true).Ok?
      ensures r.Ok? && DeltaLog.HasLog(tablePath, listing, files) ==>
                var at := ParseS3Uri(tablePath, true).value;
                var bucket := DeltaLog.LogLocation(tablePath).value.bucket;
                PlainKeys(old(storage.objects), at.bucket, at.key) ==>
                  && (forall l :: l in old(storage.objects) && l !in storage.objects ==>
                        Unnamed(l, old(storage.objects), at, now, bucket, listing.value, files))
                  && (r.value.1.failed == 0 ==> forall l :: l in old(storage.objects) ==>
                        (l !in storage.objects
                         <==> Unnamed(l, old(storage.objects), at, now, bucket, listing.value, files)))
    {
      var committed, keys := DeltaLog.ListCommittedFiles(tablePath, seed, listing, files);
      ghost var candidates, listed;
      r, candidates, listed := ScanOrphans(tablePath, now, committed);
      if r.Ok? && StartsWith(tablePath, "s3://") {
        ParsedBucketIsPlain(tablePath, true);
      }
    }
  }

  /** One genuine attempt for each URI, in order. */
  ghost predicate Attempted(uris: seq<string>, attempts: seq<Attempt>) {
    SameUris(uris, attempts) && All(Genuine, attempts)
  }

  ghost predicate SameUris(uris: seq<string>, attempts: seq<Attempt>) {
    |attempts| == |uris| && forall i :: 0 <= i < |uris| ==> attempts[i].uri == uris[i]
  }

  ghost predicate All(ok: Attempt -> bool, attempts: seq<Attempt>) {
    attempts == [] || (All(ok, attempts[..|attempts| - 1]) && ok(attempts[|attempts| - 1]))
  }

  lemma {:induction false} AllAt(ok: Attempt -> bool, attempts: seq<Attempt>, i: nat)
    requires All(ok, attempts) && i < |attempts|
    ensures ok(attempts[i])
  {
    if i < |attempts| - 1 {
      AllAt(ok, attempts[..|attempts| - 1], i);
    }
  }

  lemma AllSnoc(ok: Attempt -> bool, attempts: seq<Attempt>, a: Attempt)
    requires All(ok, attempts) && ok(a)
    ensures All(ok, attempts + [a])
  {
    assert (attempts + [a])[..|attempts|] == attempts;
  }

  lemma AttemptedAt(uris: seq<string>, attempts: seq<Attempt>, i: nat)
    requires Attempted(uris, attempts) && i < |uris|
    ensures attempts[i].uri == uris[i] && Genuine(attempts[i])
  {
    AllAt(Genuine, attempts, i);
  }

  /** Some URI of the list means this object. */
  ghost predicate Asked(uris: seq<string>, l: Location) { exists u :: u in uris && Means(u, l) }

  lemma AttemptedMeant(uris: seq<string>, attempts: seq<Attempt>, l: Location, u: string)
    requires Attempted(uris, attempts) && u in uris && Target(u) == Some(l) && NoneRefused(attempts)
    ensures exists a :: a in attempts && a.outcome.Deleted? && a.target == Some(l)
  {
    var i :| 0 <= i < |uris| && uris[i] == u;
    AttemptedAt(uris, attempts, i);
    assert attempts[i] in attempts;
  }

  lemma AskedIff(uris: seq<string>, attempts: seq<Attempt>, l: Location)
    requires Attempted(uris, attempts)
    ensures l in Hit(attempts) ==> Asked(uris, l)
    ensures NoneRefused(attempts) && Asked(uris, l) ==> l in Hit(attempts)
  {
    if l in Hit(attempts) {
      AttemptedTargets(uris, attempts, l);
      var u :| u in uris && Target(u) == Some(l);
      TargetIff(u, l);
    }
    if NoneRefused(attempts) && Asked(uris, l) {
      var u :| u in uris && Means(u, l);
      TargetIff(u, l);
      AttemptedMeant(uris, attempts, l, u);
      SomeHit(attempts, l);
    }
  }

  lemma {:induction false} SomeHit(attempts: seq<Attempt>, l: Location)
    requires exists a :: a in attempts && a.outcome.Deleted? && a.target == Some(l)
    ensures l in Hit(attempts)
  {
    var init, last := attempts[..|attempts| - 1], attempts[|attempts| - 1];
    assert attempts == init + [last];
    if !(last.outcome.Deleted? && last.target == Some(l)) {
      SomeHit(init, l);
    }
  }

  /** The first n URIs have been attempted, and the counters and the storage say so. */
  ghost predicate Booked(uris: seq<string>, n: nat, attempts: seq<Attempt>, deleted: nat, failed: nat,
                         origin: Objects, objects: Objects) {
    && n <= |uris| && Attempted(uris[..n], attempts)
    && deleted == Count(attempts, Deleted) && failed == Count(attempts, Failed)
    && objects == origin - Hit(attempts)
  }

  lemma AttemptedOne(uris: seq<string>, n: nat, attempts: seq<Attempt>, a: Attempt)
    requires n < |uris| && Attempted(uris[..n], attempts) && Genuine(a) && a.uri == uris[n]
    ensures Attempted(uris[..n + 1], attempts + [a])
  {
    SameUrisOne(uris, n, attempts, a);
    AllSnoc(Genuine, attempts, a);
  }

  lemma SameUrisOne(uris: seq<string>, n: nat, attempts: seq<Attempt>, a: Attempt)
    requires n < |uris| && SameUris(uris[..n], attempts) && a.uri == uris[n]
    ensures SameUris(uris[..n + 1], attempts + [a])
  {
    forall i | 0 <= i < n ensures (attempts + [a])[i].uri == uris[..n + 1][i] {
      assert uris[..n][i] == uris[..n + 1][i];
    }
  }

  lemma TallyOne(attempts: seq<Attempt>, a: Attempt)
    ensures forall o :: Count(attempts + [a], o) == Count(attempts, o) + if a.outcome == o then 1 else 0
    ensures Hit(attempts + [a])
         == Hit(attempts) + if a.outcome.Deleted? && a.target.Some? then {a.target.value} else {}
  {
    assert (attempts + [a])[..|attempts|] == attempts;
  }

  lemma AttemptOne(uris: seq<string>, n: nat, attempts: seq<Attempt>, deleted: nat, failed: nat,
                   origin: Objects, objects: Objects, a: Attempt, objects': Objects)
    requires n < |uris| && Booked(uris, n, attempts, deleted, failed, origin, objects)
    requires Genuine(a) && a.uri == uris[n]
    requires objects' == if a.outcome.Deleted? then objects - {a.target.value} else objects
    ensures Booked(uris, n + 1, attempts + [a], deleted + if a.outcome.Deleted? then 1 else 0,
                   failed + if a.outcome.Failed? then 1 else 0, origin, objects')
  {
    AttemptedOne(uris, n, attempts, a);
    TallyOne(attempts, a);
  }

  /** Listed URIs are all s3:// URIs, so no delete of one is skipped. */
  lemma NoneSkipped(cs: seq<Candidate>, committed: set<string>, retentionHours: int, attempts: seq<Attempt>)
    requires forall c :: c in cs ==> StartsWith(c.uri, "s3://")
    requires Attempted(Uris(Selected(cs, committed, retentionHours)), attempts)
    ensures Count(attempts, Skipped) == 0
  {
    var sel := Selected(cs, committed, retentionHours);
    forall i | 0 <= i < |sel| ensures !attempts[i].outcome.Skipped? {
      AttemptedAt(Uris(sel), attempts, i);
      SelectedExact(cs, committed, retentionHours, sel[i]);
      assert sel[i] in multiset(sel);
      assert sel[i] in multiset(cs);
    }
    CountNone(attempts, Skipped);
  }

  /** With plain keys every delete of a listed orphan is sent to some object. */
  lemma AllHaveTargets(
    cs: seq<Candidate>, keys: seq<string>, objects: Objects, bucket: string, prefix: string, now: real,
    committed: set<string>, retentionHours: int, attempts: seq<Attempt>)
    requires PlainBucket(bucket) && Lists(cs, keys, objects, bucket, prefix, now)
    requires PlainKeys(objects, bucket, prefix)
    requires Attempted(Uris(Selected(cs, committed, retentionHours)), attempts)
    ensures NoneRefused(attempts) ==> Count(attempts, Failed) == 0
  {
    var sel := Selected(cs, committed, retentionHours);
    forall i | 0 <= i < |sel| ensures attempts[i].target.Some? {
      AttemptedAt(Uris(sel), attempts, i);
      SelectedExact(cs, committed, retentionHours, sel[i]);
      assert sel[i] in multiset(sel);
      assert sel[i] in multiset(cs);
      var k :| 0 <= k < |cs| && cs[k] == sel[i];
      assert keys[k] in keys;
      TargetOfListed(Location(bucket, keys[k]));
    }
    if NoneRefused(attempts) {
      CountNone(attempts, Failed);
    }
  }

  lemma {:induction false} CountNone(attempts: seq<Attempt>, o: Outcome)
    requires forall a :: a in attempts ==> a.outcome != o
    ensures Count(attempts, o) == 0
  {
    if attempts != [] {
      CountNone(attempts[..|attempts| - 1], o);
    }
  }

  lemma AttemptedTargets(uris: seq<string>, attempts: seq<Attempt>, l: Location)
    requires Attempted(uris, attempts)
    ensures l in Hit(attempts) ==> exists u :: u in uris && Target(u) == Some(l)
    ensures Count(attempts, Failed) == 0 ==> (l in Hit(attempts) <==> exists u :: u in uris && Target(u) == Some(l))
  {
    forall i | 0 <= i < |uris| ensures attempts[i].uri == uris[i] && Genuine(attempts[i]) {
      AttemptedAt(uris, attempts, i);
    }
    HitIff(attempts, l);
    if l in Hit(attempts) {
      var a :| a in attempts && a.outcome.Deleted? && a.target == Some(l);
      assert a.uri in uris;
    }
    if u :| u in uris && Target(u) == Some(l) {
      var i :| 0 <= i < |uris| && uris[i] == u;
      assert attempts[i].target == Some(l);
    }
  }
}
