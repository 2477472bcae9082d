/** What lies outside the process: the checkpoint bucket, the durable execution context and the table.
    Calls to them may fail; a failed call is logged and changes nothing. Whether the n-th call to one of
    them works is decided outside: `works` may be any function. */
module Stores {
  import opened Wrappers
  import opened WriterModel

  /** Checkpoints in S3, by idempotency key. */
  class CheckpointStore {
    const works: nat -> bool
    var calls: nat
    var checkpoints: map<string, Checkpoint>

    /** A bucket with whatever checkpoints other jobs have left. */
    constructor (works: nat -> bool, checkpoints: map<string, Checkpoint>)
      ensures this.works == works && calls == 0 && this.checkpoints == checkpoints
    {
      this.works, calls, this.checkpoints := works, 0, checkpoints;
    }

    ghost predicate NextWorks()
      reads this`calls
    {
      works(calls)
    }

    ghost predicate AlwaysWorks() { forall n :: works(n) }

    ghost function Document(key: string): Option<Checkpoint>
      reads this`checkpoints
    {
      if key in checkpoints then Some(checkpoints[key]) else None
    }

    method Save(key: string, c: Checkpoint)
      modifies this
      ensures calls == old(calls) + 1
      ensures checkpoints == if old(NextWorks()) then old(checkpoints)[key := c] else old(checkpoints)
    {
      if works(calls) {
        checkpoints := checkpoints[key := c];
      }
      calls := calls + 1;
    }

    /** None both when there is no document and when the read fails. */
    method Load(key: string) returns (c: Option<Checkpoint>)
      modifies this`calls
      ensures calls == old(calls) + 1
      ensures c == if old(NextWorks()) then Document(key) else None
    {
      c := if works(calls) && key in checkpoints then Some(checkpoints[key]) else None;
      calls := calls + 1;
    }

    method Delete(key: string)
      modifies this
      ensures calls == old(calls) + 1
      ensures checkpoints == if old(NextWorks()) then old(checkpoints) - {key} else old(checkpoints)
    {
      if works(calls) {
        checkpoints := checkpoints - {key};
      }
      calls := calls + 1;
    }
  }

  /** A durable execution context; `clears` says which of its three clear methods it has. */
  class DurableContext {
    const works: nat -> bool
    const clears: seq<bool>
    var calls: nat
    var document: Option<Checkpoint>

    constructor (works: nat -> bool, clears: seq<bool>)
      ensures this.works == works && this.clears == clears && calls == 0 && document == None
    {
      this.works, this.clears, calls, document := works, clears, 0, None;
    }

    ghost predicate NextWorks()
      reads this`calls
    {
      works(calls)
    }

    method Put(c: Checkpoint)
      modifies this
      ensures calls == old(calls) + 1
      ensures document == if old(NextWorks()) then Some(c) else old(document)
    {
      if works(calls) {
        document := Some(c);
      }
      calls := calls + 1;
    }

    method Restore() returns (c: Option<Checkpoint>)
      modifies this`calls
      ensures calls == old(calls) + 1
      ensures c == if old(NextWorks()) then document else None
    {
      c := if works(calls) then document else None;
      calls := calls + 1;
    }

    method Clear()
      modifies this
      ensures calls == old(calls) + 1
      ensures document == if old(NextWorks()) then None else old(document)
    {
      if works(calls) {
        document := None;
      }
      calls := calls + 1;
    }
  }

  /** Mirrors S3 checkpoints into the durable context. */
  class DurableCheckpointBridge {
    const store: CheckpointStore
    const durable: DurableContext?

    constructor (store: CheckpointStore, durable: DurableContext?)
      ensures this.store == store && this.durable == durable
    {
      this.store := store;
      this.durable := durable;
    }

    /** S3 first, then the mirror; neither failure is reported to the caller. */
    method Save(key: string, c: Checkpoint)
      modifies store, durable
      ensures store.calls == old(store.calls) + 1
      ensures store.checkpoints
           == if old(store.NextWorks()) then old(store.checkpoints)[key := c] else old(store.checkpoints)
      ensures durable != null ==> durable.calls == old(durable.calls) + 1
      ensures durable != null ==>
                durable.document == if old(durable.NextWorks()) then Some(c) else old(durable.document)
    {
      store.Save(key, c);
      if durable == null {
        return;
      }
      durable.Put(c);
    }

    /** S3 wins; the durable context is asked only when S3 gives nothing. */
    method Load(key: string) returns (c: Option<Checkpoint>)
      modifies store`calls, durable
      ensures durable != null ==> durable.document == old(durable.document)
      ensures store.calls == old(store.calls) + 1
      ensures c == if old(store.NextWorks()) && store.Document(key).Some? then store.Document(key)
                   else if durable != null && old(durable.NextWorks()) then durable.document
                   else None
      ensures durable != null ==>
                durable.calls == old(durable.calls)
                                 + if old(store.NextWorks()) && store.Document(key).Some? then 0 else 1
    {
      c := store.Load(key);
      if c.Some? || durable == null {
        return;
      }
      c := durable.Restore();
    }

    /** Calls the first clear method the context has, and no other. */
    method ClearDurableCheckpoint()
      modifies durable
      ensures durable != null ==> durable.calls == old(durable.calls) + if true in durable.clears then 1 else 0
      ensures durable != null ==>
                durable.document == (if true in durable.clears && old(durable.NextWorks()) then None
                                     else old(durable.document))
    {
      if durable == null {
        return;
      }
      for i := 0 to |durable.clears|
        invariant durable.document == old(durable.document) && durable.calls == old(durable.calls)
        invariant forall j :: 0 <= j < i ==> !durable.clears[j]
      {
        if durable.clears[i] {
          durable.Clear();
          return;
        }
      }
    }
  }

  /** The table's data files. */
  class Table {
    const works: nat -> bool
    var calls: nat
    var files: map<Path, set<nat>>

    /** A table as the job finds it. */
    constructor (works: nat -> bool, files: map<Path, set<nat>>)
      ensures this.works == works && calls == 0 && this.files == files
    {
      this.works, calls, this.files := works, 0, files;
    }

    ghost predicate AlwaysWorks() { forall n :: works(n) }

    /** Tries to delete one object. Paths that are no s3:// URIs are skipped; a delete that fails is logged. */
    method Delete(path: Path)
      modifies this
      ensures calls == old(calls) + 1
      ensures files
           == if "s3://" <= path && works(old(calls)) then old(files) - {path} else old(files)
    {
      if "s3://" <= path && works(calls) {
        files := files - {path};
      }
      calls := calls + 1;
    }

    method FreshPath() returns (p: Path)
      ensures p !in files
    {
      p := *;
      while p in files
        decreases set q | q in files && |q| >= |p|
      {
        ghost var longer := set q | q in files && |q| >= |p| + 1;
        assert p !in longer && p in (set q | q in files && |q| >= |p|);
        p := p + "x";
      }
    }

    /** One file written by a running `batch_writer`: some of the records still to be written. */
    method WriteSome(left: set<nat>) returns (p: Path, records: set<nat>)
      requires left != {}
      modifies this`files
      ensures records != {} && records <= left
      ensures p !in old(files) && files == old(files)[p := records]
    {
      records := *;
      if records == {} || !(records <= left) {
        records := left;
      }
      p := FreshPath();
      files := files[p := records];
    }
  }
}
