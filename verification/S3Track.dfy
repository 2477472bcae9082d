/** The `track_paths` callback that diffs Parquet listings before and after each chunk. */
module S3Track {
  import opened Text

  /** The closure over `known`. `onS3` says whether the table path is an s3:// path. */
  class Tracker {
    const onS3: bool
    var known: set<string>

    constructor (onS3: bool, listing: set<string>)
      ensures this.onS3 == onS3 && known == if onS3 then listing else {}
    {
      this.onS3 := onS3;
      known := if onS3 then listing else {};
    }

    /** One call of `track_paths` when the listing is `current`. */
    method TrackPaths(current: set<string>) returns (newPaths: seq<string>)
      modifies this
      ensures newPaths == [] || onS3
      ensures onS3 ==> Increasing(newPaths) && Members(newPaths) == current - old(known)
      ensures known == if onS3 then old(known) + current else old(known)
    {
      newPaths := [];
      if !onS3 {
        return;
      }
      newPaths := Sorted(current - known);
      known := known + current;
    }
  }

  // ---- a sequence of calls, one per chunk, with the listing found at each ----

  /** What is known after the first n calls. */
  function Seen(known: set<string>, listings: seq<set<string>>, n: nat): (r: set<string>)
    requires n <= |listings|
    ensures known <= r
  {
    if n == 0 then known else Seen(known, listings, n - 1) + listings[n - 1]
  }

  /** What call i reports. */
  function Diff(known: set<string>, listings: seq<set<string>>, i: nat): set<string>
    requires i < |listings|
  {
    listings[i] - Seen(known, listings, i)
  }

  lemma {:induction false} SeenGrows(known: set<string>, listings: seq<set<string>>, i: nat, j: nat)
    requires i < j <= |listings|
    ensures Seen(known, listings, i) + listings[i] <= Seen(known, listings, j)
    decreases j
  {
    if j > i + 1 {
      SeenGrows(known, listings, i, j - 1);
    }
  }

  /** The diffs are disjoint: no path is reported twice. */
  lemma DiffsDisjoint(known: set<string>, listings: seq<set<string>>, i: nat, j: nat)
    requires i < j < |listings|
    ensures Diff(known, listings, i) !! Diff(known, listings, j)
  {
    SeenGrows(known, listings, i, j);
  }

  function AllDiffs(known: set<string>, listings: seq<set<string>>, n: nat): set<string>
    requires n <= |listings|
  {
    if n == 0 then {} else AllDiffs(known, listings, n - 1) + Diff(known, listings, n - 1)
  }

  /** Their union is everything seen since the tracker was built. */
  lemma {:induction false} DiffsCover(known: set<string>, listings: seq<set<string>>, n: nat)
    requires n <= |listings|
    ensures AllDiffs(known, listings, n) == Seen(known, listings, n) - known
  {
    if n > 0 {
      DiffsCover(known, listings, n - 1);
    }
  }

  /** Exactly when deleting everything tracked restores the listing taken when the tracker was built:
      nothing that was there then has gone from the last listing. */
  lemma DeletingTrackedRestores(known: set<string>, listings: seq<set<string>>)
    requires listings != []
    ensures var last := listings[|listings| - 1];
            last - AllDiffs(known, listings, |listings|) == known <==> known <= last
  {
    DiffsCover(known, listings, |listings|);
    SeenGrows(known, listings, |listings| - 1, |listings|);
  }
}
