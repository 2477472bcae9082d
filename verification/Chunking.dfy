/** The chunks `write` cuts [resume, total) into, and the rows the Spark filter selects for each. */
module Chunking {
  datatype Chunk = Chunk(start: nat, end: nat)

  /** The chunks the loop works through from a given offset. */
  function Chunks(from: nat, total: nat, interval: nat): (cs: seq<Chunk>)
    requires interval > 0
    decreases total - from
  {
    if from >= total then []
    else
      var end := if from + interval < total then from + interval else total;
      [Chunk(from, end)] + Chunks(end, total, interval)
  }

  /** A contiguous, ordered cover of [from, total) by non-empty chunks of at most `interval` records. */
  ghost predicate Tiles(cs: seq<Chunk>, from: nat, total: nat, interval: nat) {
    if from >= total then cs == []
    else
      && cs != []
      && cs[0].start == from
      && (forall k :: 0 <= k < |cs| ==> cs[k].start < cs[k].end <= cs[k].start + interval && cs[k].end <= total)
      && (forall k :: 0 <= k < |cs| - 1 ==> cs[k].end == cs[k + 1].start && cs[k].end == cs[k].start + interval)
      && cs[|cs| - 1].end == total
  }

  lemma TilesCons(rest: seq<Chunk>, from: nat, end: nat, total: nat, interval: nat)
    requires from < end <= total && end <= from + interval && (end < total ==> end == from + interval)
    requires Tiles(rest, end, total, interval)
    ensures Tiles([Chunk(from, end)] + rest, from, total, interval)
  {
    var cs := [Chunk(from, end)] + rest;
    forall k | 0 <= k < |cs|
      ensures cs[k].start < cs[k].end <= cs[k].start + interval && cs[k].end <= total
    {
      if k > 0 { assert cs[k] == rest[k - 1]; }
    }
    forall k | 0 <= k < |cs| - 1
      ensures cs[k].end == cs[k + 1].start && cs[k].end == cs[k].start + interval
    {
      assert cs[k + 1] == rest[k];
      if k > 0 { assert cs[k] == rest[k - 1]; }
    }
  }

  lemma {:induction false} ChunksTile(from: nat, total: nat, interval: nat)
    requires interval > 0
    ensures Tiles(Chunks(from, total, interval), from, total, interval)
    decreases total - from
  {
    if from < total {
      var end := if from + interval < total then from + interval else total;
      ChunksTile(end, total, interval);
      TilesCons(Chunks(end, total, interval), from, end, total, interval);
    }
  }

  /** There is only one such tiling, so it is the loop's. */
  lemma {:induction false} TilingUnique(cs: seq<Chunk>, from: nat, total: nat, interval: nat)
    requires interval > 0 && Tiles(cs, from, total, interval)
    ensures cs == Chunks(from, total, interval)
    decreases total - from
  {
    if from < total {
      var end := if from + interval < total then from + interval else total;
      assert cs[0].end == end;
      assert Tiles(cs[1..], end, total, interval);
      TilingUnique(cs[1..], end, total, interval);
      assert cs == [cs[0]] + cs[1..];
    }
  }

  /** There are ceil((total - from) / interval) chunks: the least count whose chunks can hold the rest. */
  lemma {:induction false} ChunkCount(from: nat, total: nat, interval: nat)
    requires interval > 0 && from <= total
    ensures var n := |Chunks(from, total, interval)|;
            && total - from <= n * interval
            && (n > 0 ==> (n - 1) * interval < total - from)
    decreases total - from
  {
    if from < total {
      var end := if from + interval < total then from + interval else total;
      ChunkCount(end, total, interval);
      var n := |Chunks(end, total, interval)|;
      assert (n + 1) * interval == n * interval + interval;
      if n > 0 { assert (n - 1) * interval == n * interval - interval; }
    }
  }

  /** The Spark filter of one `batch_writer(start, end)` call over rows numbered from 1. */
  predicate Selects(c: Chunk, rowNumber: nat) { c.start < rowNumber <= c.end }

  ghost predicate Picked(cs: seq<Chunk>, row: nat) { exists k :: 0 <= k < |cs| && Selects(cs[k], row) }

  lemma PickedCons(c: Chunk, rest: seq<Chunk>, row: nat)
    ensures Picked([c] + rest, row) <==> Selects(c, row) || Picked(rest, row)
  {
    var cs := [c] + rest;
    if Picked(rest, row) {
      var k :| 0 <= k < |rest| && Selects(rest[k], row);
      assert Selects(cs[k + 1], row);
    }
    if Selects(c, row) { assert Selects(cs[0], row); }
    if Picked(cs, row) {
      var k :| 0 <= k < |cs| && Selects(cs[k], row);
      if k > 0 { assert Selects(rest[k - 1], row); }
    }
  }

  /** Every remaining row, and no other, is selected by some chunk. The row of the 0-based record r
      carries number r + 1. */
  lemma {:induction false} EachRowPicked(from: nat, total: nat, interval: nat, row: nat)
    requires interval > 0
    ensures Picked(Chunks(from, total, interval), row) <==> from < row <= total
    decreases total - from
  {
    if from < total {
      var end := if from + interval < total then from + interval else total;
      EachRowPicked(end, total, interval, row);
      PickedCons(Chunk(from, end), Chunks(end, total, interval), row);
    }
  }

  /** No row is selected by two chunks. */
  lemma {:induction false} NoRowPickedTwice(from: nat, total: nat, interval: nat, row: nat, j: nat, k: nat)
    requires interval > 0 && j < |Chunks(from, total, interval)| && k < |Chunks(from, total, interval)|
    requires Selects(Chunks(from, total, interval)[j], row)
    requires Selects(Chunks(from, total, interval)[k], row)
    ensures j == k
    decreases total - from
  {
    var end := if from + interval < total then from + interval else total;
    var rest := Chunks(end, total, interval);
    EachRowPicked(end, total, interval, row);
    if j > 0 { assert Selects(rest[j - 1], row); }
    if k > 0 { assert Selects(rest[k - 1], row); }
    if j > 0 && k > 0 {
      NoRowPickedTwice(end, total, interval, row, j - 1, k - 1);
    }
  }
}
