/** JSON values, and the persisted documents as JSON. */
module Models {
  import opened Wrappers
  import opened Enums

  /** What `json.loads` gives. Numbers with a fraction or an exponent are `Real`. */
  datatype Json =
    | Null
    | Bool(b: bool)
    | Int(i: int)
    | Real(r: real)
    | Str(s: string)
    | Arr(items: seq<Json>)
    | Obj(fields: map<string, Json>)

  type Dict = map<string, Json>

  /** The parts of Python's conversions that are left open: `int(text)`, `str(x)` of anything that is no
      text, and `dict(x)` of anything that is no object. Every statement holds whatever they do. */
  datatype Python = Python(
    parseInt: string -> Option<int>,
    render: Json -> string,
    dictOf: Json -> Option<Dict>)
  {
    /** `int(j)`; None where it raises. */
    function ToInt(j: Json): Option<int> {
      match j
      case Int(i) => Some(i)
      case Bool(b) => Some(if b then 1 else 0)
      case Real(r) => Some(if r >= 0.0 then r.Floor else -((-r).Floor))
      case Str(s) => parseInt(s)
      case Null => None
      case Arr(_) => None
      case Obj(_) => None
    }

    /** `str(j)` */
    function ToStr(j: Json): string { if j.Str? then j.s else render(j) }

    /** `dict(j)`; None where it raises. */
    function ToDict(j: Json): Option<Dict> { if j.Obj? then Some(j.fields) else dictOf(j) }
  }

  /** `bool(j)` */
  predicate Truthy(j: Json) {
    match j
    case Null => false
    case Bool(b) => b
    case Int(i) => i != 0
    case Real(r) => r != 0.0
    case Str(s) => s != []
    case Arr(items) => items != []
    case Obj(fields) => fields != map[]
  }

  /** The seven values that count as false. */
  lemma Falsy(j: Json)
    ensures !Truthy(j) <==>
              || j == Null || j == Bool(false) || j == Int(0) || j == Real(0.0)
              || j == Str("") || j == Arr([]) || j == Obj(map[])
  {
  }

  /** `int(x)` of a number with a fraction drops it: the result lies between 0 and x, less than 1 from x. */
  lemma IntTruncates(r: real, py: Python)
    ensures var i := py.ToInt(Real(r));
            && i.Some?
            && (r >= 0.0 ==> 0.0 <= i.value as real <= r < i.value as real + 1.0)
            && (r <= 0.0 ==> i.value as real - 1.0 < r <= i.value as real <= 0.0)
  {
  }

  function Get(d: Dict, key: string, default_: Json): Json { if key in d then d[key] else default_ }

  // ---- checkpoints ----

  datatype FileEntry = FileEntry(path: string, sizeBytes: int, recordCount: int, checksum: string)

  datatype CheckpointData = CheckpointData(
    idempotencyKey: string,
    tablePath: string,
    tableFormat: string,
    recordOffset: int,
    partitionInfo: Dict,
    fileManifest: seq<FileEntry>,
    createdAt: string,
    lambdaFunctionName: string,
    lambdaRequestId: string,
    schemaVersion: int)

  function EntryJson(f: FileEntry): Json {
    Obj(map["path" := Str(f.path), "size_bytes" := Int(f.sizeBytes),
            "record_count" := Int(f.recordCount), "checksum" := Str(f.checksum)])
  }

  function ManifestJson(fs: seq<FileEntry>): (js: seq<Json>)
    ensures |js| == |fs|
    ensures forall k :: 0 <= k < |fs| ==> js[k] == EntryJson(fs[k])
  {
    if fs == [] then [] else ManifestJson(fs[..|fs| - 1]) + [EntryJson(fs[|fs| - 1])]
  }

  function CheckpointJson(c: CheckpointData): Dict {
    map["idempotency_key" := Str(c.idempotencyKey),
        "table_path" := Str(c.tablePath),
        "table_format" := Str(c.tableFormat),
        "record_offset" := Int(c.recordOffset),
        "partition_info" := Obj(c.partitionInfo),
        "file_manifest" := Arr(ManifestJson(c.fileManifest)),
        "created_at" := Str(c.createdAt),
        "lambda_function_name" := Str(c.lambdaFunctionName),
        "lambda_request_id" := Str(c.lambdaRequestId),
        "schema_version" := Int(c.schemaVersion)]
  }

  // ---- transactions ----

  /** The vote is kept as whatever JSON value it is. */
  datatype ParticipantState = ParticipantState(
    participantId: string,
    lambdaFunctionName: string,
    vote: Json,
    phase1Complete: bool,
    phase2Complete: bool,
    lastHeartbeat: string)

  datatype TransactionState = TransactionState(
    transactionId: string,
    status: Status,
    participants: seq<ParticipantState>,
    createdAt: string,
    updatedAt: string,
    coordinatorLambda: string,
    timeoutMs: int)

  function ParticipantJson(p: ParticipantState): Json {
    Obj(map["participant_id" := Str(p.participantId),
            "lambda_function_name" := Str(p.lambdaFunctionName),
            "vote" := p.vote,
            "phase1_complete" := Bool(p.phase1Complete),
            "phase2_complete" := Bool(p.phase2Complete),
            "last_heartbeat" := Str(p.lastHeartbeat)])
  }

  function ParticipantsJson(ps: seq<ParticipantState>): seq<Json> {
    if ps == [] then [] else ParticipantsJson(ps[..|ps| - 1]) + [ParticipantJson(ps[|ps| - 1])]
  }

  function TransactionJson(t: TransactionState): Json {
    Obj(map["transaction_id" := Str(t.transactionId),
            "status" := Str(StatusName(t.status)),
            "participants" := Arr(ParticipantsJson(t.participants)),
            "created_at" := Str(t.createdAt),
            "updated_at" := Str(t.updatedAt),
            "coordinator_lambda" := Str(t.coordinatorLambda),
            "timeout_ms" := Int(t.timeoutMs)])
  }

  predicate HasAll(d: Dict, keys: set<string>) { keys <= d.Keys }

  const PARTICIPANT_KEYS := {"participant_id", "lambda_function_name", "phase1_complete", "phase2_complete",
                             "last_heartbeat"}

  const TRANSACTION_KEYS := {"participants", "transaction_id", "status", "created_at", "updated_at",
                             "coordinator_lambda", "timeout_ms"}

  function ParticipantOf(j: Json, py: Python): Option<ParticipantState> {
    if !j.Obj? || !HasAll(j.fields, PARTICIPANT_KEYS) then None
    else
      var d := j.fields;
      Some(ParticipantState(
             py.ToStr(d["participant_id"]), py.ToStr(d["lambda_function_name"]), Get(d, "vote", Null),
             Truthy(d["phase1_complete"]), Truthy(d["phase2_complete"]), py.ToStr(d["last_heartbeat"])))
  }

  function ParticipantsOf(js: seq<Json>, py: Python): Option<seq<ParticipantState>> {
    if js == [] then Some([])
    else
      var init, last := ParticipantsOf(js[..|js| - 1], py), ParticipantOf(js[|js| - 1], py);
      if init.None? || last.None? then None else Some(init.value + [last.value])
  }

  /** What iterating over the participants yields: an empty text or object yields none, a number or null
      cannot be iterated, and the characters or keys of anything else are no participants. */
  function Participants(j: Json, py: Python): Option<seq<ParticipantState>> {
    match j
    case Arr(items) => ParticipantsOf(items, py)
    case Str(s) => if s == [] then Some([]) else None
    case Obj(fields) => if fields == map[] then Some([]) else None
    case Null => None
    case Bool(_) => None
    case Int(_) => None
    case Real(_) => None
  }

  /** `TransactionState.from_json`; None is a CheckpointCorruptionError. */
  function TransactionOf(root: Json, py: Python): Option<TransactionState> {
    if !root.Obj? || !HasAll(root.fields, TRANSACTION_KEYS) then None
    else
      var d := root.fields;
      var parts := Participants(d["participants"], py);
      var status := ParseStatus(py.ToStr(d["status"]));
      var timeoutMs := py.ToInt(d["timeout_ms"]);
      if parts.None? || status.None? || timeoutMs.None? then None
      else
        Some(TransactionState(
               py.ToStr(d["transaction_id"]), status.value, parts.value, py.ToStr(d["created_at"]),
               py.ToStr(d["updated_at"]), py.ToStr(d["coordinator_lambda"]), timeoutMs.value))
  }

  lemma ParticipantRoundTrip(p: ParticipantState, py: Python)
    ensures ParticipantOf(ParticipantJson(p), py) == Some(p)
  {
  }

  lemma ParticipantsSnoc(js: seq<Json>, j: Json, py: Python)
    requires ParticipantsOf(js, py).Some? && ParticipantOf(j, py).Some?
    ensures ParticipantsOf(js + [j], py) == Some(ParticipantsOf(js, py).value + [ParticipantOf(j, py).value])
  {
    assert (js + [j])[..|js|] == js;
  }

  lemma {:induction false} ParticipantsRoundTrip(ps: seq<ParticipantState>, py: Python)
    ensures ParticipantsOf(ParticipantsJson(ps), py) == Some(ps)
  {
    if ps != [] {
      var n := |ps| - 1;
      ParticipantsRoundTrip(ps[..n], py);
      ParticipantRoundTrip(ps[n], py);
      ParticipantsSnoc(ParticipantsJson(ps[..n]), ParticipantJson(ps[n]), py);
      assert ps == ps[..n] + [ps[n]];
    }
  }

  /** A participant without a vote entry has no vote; one that lacks any other entry is refused. */
  lemma ParticipantDefaults(p: ParticipantState, missing: set<string>, py: Python)
    ensures ParticipantOf(Obj(ParticipantJson(p).fields - {"vote"}), py) == Some(p.(vote := Null))
    ensures var required := {"participant_id", "lambda_function_name", "phase1_complete", "phase2_complete",
                             "last_heartbeat"};
            missing * required != {} ==> ParticipantOf(Obj(ParticipantJson(p).fields - missing), py).None?
  {
    if k :| k in missing * PARTICIPANT_KEYS {
      assert k !in ParticipantJson(p).fields - missing;
    }
  }

  /** A document that lacks a field, or whose status is none of the seven names, is refused. */
  lemma TransactionRefused(d: Dict, py: Python)
    ensures var required := {"participants", "transaction_id", "status", "created_at", "updated_at",
                             "coordinator_lambda", "timeout_ms"};
            !(required <= d.Keys) ==> TransactionOf(Obj(d), py).None?
    ensures var names := {"INITIATED", "PREPARING", "PREPARED", "COMMITTING", "COMMITTED", "ABORTING", "ABORTED"};
            "status" in d && d["status"].Str? && d["status"].s !in names ==> TransactionOf(Obj(d), py).None?
  {
  }

  lemma TransactionFields(t: TransactionState)
    ensures var d := TransactionJson(t).fields;
            && HasAll(d, TRANSACTION_KEYS)
            && d["transaction_id"] == Str(t.transactionId) && d["status"] == Str(StatusName(t.status))
            && d["participants"] == Arr(ParticipantsJson(t.participants))
            && d["created_at"] == Str(t.createdAt) && d["updated_at"] == Str(t.updatedAt)
            && d["coordinator_lambda"] == Str(t.coordinatorLambda) && d["timeout_ms"] == Int(t.timeoutMs)
  {
  }

  /** A stored transaction document reads back as the state that was stored, so `recover` returns exactly
      the state of the last save that landed. */
  lemma TransactionRoundTrip(t: TransactionState, py: Python)
    ensures TransactionOf(TransactionJson(t), py) == Some(t)
  {
    TransactionFields(t);
    ParticipantsRoundTrip(t.participants, py);
    StatusRoundTrip(t.status);
  }
}
