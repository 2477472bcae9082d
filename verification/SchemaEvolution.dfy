/** Loading a checkpoint document of any schema version the program still understands. */
module SchemaEvolution {
  import opened Wrappers
  import opened Models

  const CURRENT_SCHEMA_VERSION := 1

  function VersionOf(d: Dict, py: Python): Option<int> { py.ToInt(Get(d, "schema_version", Int(1))) }

  /** What `data.get("file_manifest") or []` iterates over; None where it cannot be iterated. The keys of
      an object and the characters of a text are skipped like every other entry that is no object. */
  function Entries(d: Dict): Option<seq<Json>> {
    var manifest := Get(d, "file_manifest", Null);
    if !Truthy(manifest) then Some([])
    else
      match manifest
      case Arr(items) => Some(items)
      case Str(_) => Some([])
      case Obj(_) => Some([])
      case Null => None
      case Bool(_) => None
      case Int(_) => None
      case Real(_) => None
  }

  function ReadEntry(e: Dict, py: Python): Option<FileEntry> {
    var size := py.ToInt(Get(e, "size_bytes", Int(0)));
    var count := py.ToInt(Get(e, "record_count", Int(0)));
    if size.None? || count.None? then None
    else Some(FileEntry(py.ToStr(Get(e, "path", Str(""))), size.value, count.value,
                        py.ToStr(Get(e, "checksum", Str("")))))
  }

  /** The entries that are objects, in order; None if one of them cannot be read. */
  function ReadEntries(items: seq<Json>, py: Python): Option<seq<FileEntry>> {
    if items == [] then Some([])
    else
      var init, last := ReadEntries(items[..|items| - 1], py), items[|items| - 1];
      if init.None? then None
      else if !last.Obj? then init
      else
        var entry := ReadEntry(last.fields, py);
        if entry.None? then None else Some(init.value + [entry.value])
  }

  /** The document with the three fields migration owns set. */
  function Settled(d: Dict, files: seq<FileEntry>): (m: Dict)
    ensures m.Keys == d.Keys + {"partition_info", "file_manifest", "schema_version"}
    ensures m["schema_version"] == Int(CURRENT_SCHEMA_VERSION) && m["file_manifest"] == Arr(ManifestJson(files))
    ensures m["partition_info"] == Get(d, "partition_info", Obj(map[]))
    ensures forall k :: k in d && k != "file_manifest" && k != "schema_version" ==> m[k] == d[k]
  {
    d["partition_info" := Get(d, "partition_info", Obj(map[]))]
     ["file_manifest" := Arr(ManifestJson(files))]
     ["schema_version" := Int(CURRENT_SCHEMA_VERSION)]
  }

  /** Setting the fields where they have to be set, in the order of the code, gives the same document. */
  lemma SettledByParts(d: Dict, files: seq<FileEntry>)
    ensures forall v: Json {:trigger d["schema_version" := v]} ::
              var d1 := d["schema_version" := v];
              (if "partition_info" in d1 then d1 else d1["partition_info" := Obj(map[])])
                ["file_manifest" := Arr(ManifestJson(files))]["schema_version" := Int(1)] == Settled(d, files)
    ensures (if "partition_info" in d then d else d["partition_info" := Obj(map[])])
              ["file_manifest" := Arr(ManifestJson(files))]["schema_version" := Int(1)] == Settled(d, files)
  {
  }

  /** What migrating should give: version 1 in place, partition info present, manifest normalised. */
  function Migrated(d: Dict, py: Python): Option<Dict> {
    var version, entries := VersionOf(d, py), Entries(d);
    if version.None? || version.value > CURRENT_SCHEMA_VERSION || entries.None? then None
    else
      var files := ReadEntries(entries.value, py);
      if files.None? then None
      else
        Some(Settled(d, files.value))
  }

  /** The manifest loop; None where a conversion raises. */
  method NormalizeManifest(items: seq<Json>, py: Python)
    returns (normalized: Option<seq<Json>>, ghost files: seq<FileEntry>)
    ensures normalized.None? <==> ReadEntries(items, py).None?
    ensures normalized.Some? ==> ReadEntries(items, py) == Some(files) && normalized.value == ManifestJson(files)
  {
    var out: seq<Json> := [];
    files := [];
    assert items[..0] == [];
    for n := 0 to |items|
      invariant ReadEntries(items[..n], py) == Some(files)
      invariant out == ManifestJson(files)
    {
      var entry := items[n];
      assert items[..n + 1][..n] == items[..n];
      if entry.Obj? {
        var read := ReadEntry(entry.fields, py);
        if read.None? {
          UnreadableStays(items, n + 1, py);
          return None, [];
        }
        out := out + [EntryJson(read.value)];
        assert (files + [read.value])[..|files|] == files;
        files := files + [read.value];
      }
    }
    assert items[..|items|] == items;
    normalized := Some(out);
  }

  /** `migrate_checkpoint_dict`: None where it raises. */
  method MigrateCheckpointDict(d0: Dict, py: Python) returns (r: Option<Dict>)
    ensures r == Migrated(d0, py)
  {
    var d := d0;
    var v := VersionOf(d, py);
    if v.None? {
      return None;
    }
    var version := v.value;
    ghost var files: seq<FileEntry> := [];
    if version < 1 {
      d := d["schema_version" := Int(1)];
      version := 1;
    }
    if version == 1 {
      if "partition_info" !in d {
        d := d["partition_info" := Obj(map[])];
      }
      var manifest := Entries(d);
      assert manifest == Entries(d0);
      if manifest.None? {
        return None;
      }
      var normalized;
      normalized, files := NormalizeManifest(manifest.value, py);
      if normalized.None? {
        return None;
      }
      d := d["file_manifest" := Arr(normalized.value)];
    }
    var after := VersionOf(d, py);
    if after.None? || after.value > CURRENT_SCHEMA_VERSION {
      return None;
    }
    d := d["schema_version" := Int(CURRENT_SCHEMA_VERSION)];
    SettledByParts(d0, files);
    r := Some(d);
  }

  lemma {:induction false} UnreadableStays(items: seq<Json>, n: nat, py: Python)
    requires n <= |items| && ReadEntries(items[..n], py).None?
    ensures ReadEntries(items, py).None?
    decreases |items| - n
  {
    if n == |items| {
      assert items[..n] == items;
    } else {
      assert items[..n + 1][..n] == items[..n];
      UnreadableStays(items, n + 1, py);
    }
  }

  lemma EntryRoundTrip(f: FileEntry, py: Python)
    ensures EntryJson(f).Obj? && ReadEntry(EntryJson(f).fields, py) == Some(f)
  {
  }

  lemma {:induction false} ManifestRoundTrip(fs: seq<FileEntry>, py: Python)
    ensures ReadEntries(ManifestJson(fs), py) == Some(fs)
  {
    if fs != [] {
      var n := |fs| - 1;
      ManifestRoundTrip(fs[..n], py);
      EntryRoundTrip(fs[n], py);
      assert ManifestJson(fs)[..n] == ManifestJson(fs[..n]);
      assert fs == fs[..n] + [fs[n]];
    }
  }

  /** Migration gives version 1 or an error, adds nothing but the three fields it owns and changes no
      other, and doing it again changes nothing. */
  lemma MigrationSettles(d: Dict, py: Python)
    requires Migrated(d, py).Some?
    ensures var m := Migrated(d, py).value;
            && m.Keys == d.Keys + {"partition_info", "file_manifest", "schema_version"}
            && m["schema_version"] == Int(1)
            && (forall k :: k in d && k != "file_manifest" && k != "schema_version" ==> m[k] == d[k])
            && Migrated(m, py) == Some(m)
  {
    var files := ReadEntries(Entries(d).value, py).value;
    SettledReads(d, files, py);
  }

  lemma SettledReads(d: Dict, files: seq<FileEntry>, py: Python)
    ensures Migrated(Settled(d, files), py) == Some(Settled(d, files))
    ensures Entries(Settled(d, files)) == Some(ManifestJson(files))
    ensures ReadEntries(ManifestJson(files), py) == Some(files)
  {
    ManifestRoundTrip(files, py);
    SettledFields(d, files, py);
    SettledTwice(d, files);
  }

  lemma SettledFields(d: Dict, files: seq<FileEntry>, py: Python)
    ensures VersionOf(Settled(d, files), py) == Some(1)
    ensures Entries(Settled(d, files)) == Some(ManifestJson(files))
  {
    var m := Settled(d, files);
    assert Get(m, "schema_version", Int(1)) == Int(1);
    assert Get(m, "file_manifest", Null) == Arr(ManifestJson(files));
  }

  lemma SettledTwice(d: Dict, files: seq<FileEntry>)
    ensures Settled(Settled(d, files), files) == Settled(d, files)
  {
  }

  // ---- loading ----

  /** `Corrupt` is a CheckpointCorruptionError, `Raised` a bare conversion error. */
  datatype LoadError = Corrupt | Raised

  const REQUIRED := {"idempotency_key", "table_path", "table_format", "record_offset", "file_manifest",
                     "created_at", "lambda_function_name", "lambda_request_id"}

  /** The fields that end up in the checkpoint, taken from a migrated document. */
  function BuildCheckpoint(m: Dict, files: seq<FileEntry>, py: Python): Result<CheckpointData, LoadError>
    requires REQUIRED <= m.Keys && "partition_info" in m && "schema_version" in m
  {
    var offset := py.ToInt(m["record_offset"]);
    var partitionInfo := py.ToDict(m["partition_info"]);
    var version := py.ToInt(m["schema_version"]);
    if offset.None? || partitionInfo.None? || version.None? then Err(Raised)
    else
      Ok(CheckpointData(
           py.ToStr(m["idempotency_key"]), py.ToStr(m["table_path"]), py.ToStr(m["table_format"]),
           offset.value, partitionInfo.value, files, py.ToStr(m["created_at"]),
           py.ToStr(m["lambda_function_name"]), py.ToStr(m["lambda_request_id"]), version.value))
  }

  /** `load_checkpoint_migrated` on parsed JSON. */
  function LoadCheckpointMigrated(root: Json, py: Python): Result<CheckpointData, LoadError> {
    if !root.Obj? || !(REQUIRED <= root.fields.Keys) then Err(Corrupt)
    else
      var migrated := Migrated(root.fields, py);
      if migrated.None? then Err(Corrupt)
      else
        MigrationSettles(root.fields, py);
        BuildCheckpoint(migrated.value, ReadEntries(Entries(migrated.value).value, py).value, py)
  }

  lemma CheckpointMigrates(c: CheckpointData, py: Python)
    requires c.schemaVersion <= 1
    ensures Migrated(CheckpointJson(c), py) == Some(CheckpointJson(c.(schemaVersion := 1)))
  {
    Buildable(c, py);
    ManifestReadable(c, py);
    CheckpointSettled(c);
  }

  lemma CheckpointSettled(c: CheckpointData)
    ensures Settled(CheckpointJson(c), c.fileManifest) == CheckpointJson(c.(schemaVersion := 1))
  {
    var d, d' := CheckpointJson(c), CheckpointJson(c.(schemaVersion := 1));
    assert d' == d["schema_version" := Int(1)];
    assert d["partition_info" := Obj(c.partitionInfo)] == d;
    assert d["file_manifest" := Arr(ManifestJson(c.fileManifest))] == d;
  }

  /** A saved checkpoint loads back with every field as it was, except that an older version number becomes
      1; a newer version is refused. So loading undoes saving exactly for version 1. */
  lemma {:induction false} CheckpointRoundTrip(c: CheckpointData, py: Python)
    ensures LoadCheckpointMigrated(Obj(CheckpointJson(c)), py)
         == if c.schemaVersion <= 1 then Ok(c.(schemaVersion := 1)) else Err(Corrupt)
    ensures LoadCheckpointMigrated(Obj(CheckpointJson(c)), py) == Ok(c) <==> c.schemaVersion == 1
  {
    Buildable(c, py);
    if c.schemaVersion <= 1 {
      var c' := c.(schemaVersion := 1);
      CheckpointMigrates(c, py);
      Buildable(c', py);
      ManifestReadable(c', py);
    }
  }

  // ---- documents that say less, or more ----

  /** A document of an older writer, which lacks the version, the partition info or both, loads as if it said
      version 1 and had none. */
  lemma {:induction false} LegacyLoads(c: CheckpointData, missing: set<string>, py: Python)
    requires c.schemaVersion <= 1 && missing <= {"schema_version", "partition_info"}
    ensures LoadCheckpointMigrated(Obj(CheckpointJson(c) - missing), py)
         == Ok(c.(schemaVersion := 1,
                  partitionInfo := if "partition_info" in missing then map[] else c.partitionInfo))
  {
    var c' := c.(schemaVersion := 1,
                 partitionInfo := if "partition_info" in missing then map[] else c.partitionInfo);
    LegacyMigrates(c, missing, py);
    assert REQUIRED <= (CheckpointJson(c) - missing).Keys;
    Buildable(c', py);
    ManifestReadable(c', py);
  }

  lemma LegacyMigrates(c: CheckpointData, missing: set<string>, py: Python)
    requires c.schemaVersion <= 1 && missing <= {"schema_version", "partition_info"}
    ensures Migrated(CheckpointJson(c) - missing, py)
         == Some(CheckpointJson(c.(schemaVersion := 1,
                                   partitionInfo := if "partition_info" in missing then map[] else c.partitionInfo)))
  {
    var d := CheckpointJson(c) - missing;
    ManifestReadable(c, py);
    assert Get(d, "file_manifest", Null) == Get(CheckpointJson(c), "file_manifest", Null);
    assert Get(d, "schema_version", Int(1)) in {Int(1), Int(c.schemaVersion)};
    LegacySettled(c, missing);
  }

  lemma LegacySettled(c: CheckpointData, missing: set<string>)
    requires missing <= {"schema_version", "partition_info"}
    ensures Settled(CheckpointJson(c) - missing, c.fileManifest)
         == CheckpointJson(c.(schemaVersion := 1,
                              partitionInfo := if "partition_info" in missing then map[] else c.partitionInfo))
  {
  }

  /** A document that lacks any of the other eight fields is refused, and so is one of a newer version. */
  lemma Refused(d: Dict, py: Python)
    ensures !({"idempotency_key", "table_path", "table_format", "record_offset", "file_manifest", "created_at",
               "lambda_function_name", "lambda_request_id"} <= d.Keys) ==>
              LoadCheckpointMigrated(Obj(d), py) == Err(Corrupt)
    ensures "schema_version" in d && d["schema_version"].Int? && d["schema_version"].i > 1 ==>
              LoadCheckpointMigrated(Obj(d), py) == Err(Corrupt)
  {
  }

  /** What a manifest entry does not say is empty or zero. */
  lemma EntryDefaults(f: FileEntry, missing: set<string>, py: Python)
    ensures var read := ReadEntry(EntryJson(f).fields - missing, py);
            && read.Some?
            && read.value.path == (if "path" in missing then "" else f.path)
            && read.value.sizeBytes == (if "size_bytes" in missing then 0 else f.sizeBytes)
            && read.value.recordCount == (if "record_count" in missing then 0 else f.recordCount)
            && read.value.checksum == if "checksum" in missing then "" else f.checksum
  {
  }

  /** An entry that is no object makes no difference, wherever it stands. */
  lemma {:induction false} OtherEntriesSkipped(before: seq<Json>, j: Json, after: seq<Json>, py: Python)
    requires !j.Obj?
    ensures ReadEntries(before + [j] + after, py) == ReadEntries(before + after, py)
  {
    var items := before + [j] + after;
    if after == [] {
      assert before + after == before && items[..|items| - 1] == before;
    } else {
      var n := |after| - 1;
      OtherEntriesSkipped(before, j, after[..n], py);
      assert items[..|items| - 1] == before + [j] + after[..n];
      assert (before + after)[..|before + after| - 1] == before + after[..n];
    }
  }

  lemma Buildable(c: CheckpointData, py: Python)
    ensures var d := CheckpointJson(c);
            && REQUIRED <= d.Keys && "partition_info" in d && "schema_version" in d
            && BuildCheckpoint(d, c.fileManifest, py) == Ok(c)
    ensures VersionOf(CheckpointJson(c), py) == Some(c.schemaVersion)
  {
    CheckpointFields(c);
  }

  lemma CheckpointFields(c: CheckpointData)
    ensures var d := CheckpointJson(c);
            && REQUIRED <= d.Keys && "partition_info" in d && "schema_version" in d
            && d["idempotency_key"] == Str(c.idempotencyKey) && d["table_path"] == Str(c.tablePath)
            && d["table_format"] == Str(c.tableFormat) && d["record_offset"] == Int(c.recordOffset)
            && d["partition_info"] == Obj(c.partitionInfo) && d["created_at"] == Str(c.createdAt)
            && d["lambda_function_name"] == Str(c.lambdaFunctionName)
            && d["lambda_request_id"] == Str(c.lambdaRequestId) && d["schema_version"] == Int(c.schemaVersion)
  {
  }

  lemma ManifestReadable(c: CheckpointData, py: Python)
    ensures Entries(CheckpointJson(c)).Some?
         && ReadEntries(Entries(CheckpointJson(c)).value, py) == Some(c.fileManifest)
  {
    ManifestRoundTrip(c.fileManifest, py);
    ManifestField(c);
    assert c.fileManifest == [] ==> ManifestJson(c.fileManifest) == [];
  }

  lemma ManifestField(c: CheckpointData)
    ensures Get(CheckpointJson(c), "file_manifest", Null) == Arr(ManifestJson(c.fileManifest))
  {
  }

  /** Whatever loads has version 1, and saving and loading it once more gives it back. */
  lemma {:induction false} LoadedIsStable(root: Json, py: Python)
    requires LoadCheckpointMigrated(root, py).Ok?
    ensures var c := LoadCheckpointMigrated(root, py).value;
            c.schemaVersion == 1 && LoadCheckpointMigrated(Obj(CheckpointJson(c)), py) == Ok(c)
  {
    MigrationSettles(root.fields, py);
    CheckpointRoundTrip(LoadCheckpointMigrated(root, py).value, py);
  }
}
