/**
 * The records and enumerations every agent shares (app/domain/models.py):
 * task lifecycle status, message kinds, the Task record and the message
 * envelope, together with the dictionary form of a Task that travels inside
 * a message payload (`model_dump`) and its validation back into a Task
 * (`model_validate`).
 */
module Domain {
  import opened Wrappers

  /** A UUID. Fresh ones (uuid4) are supplied by the caller as parameters. */
  type Uuid = nat

  /** A value of an open payload mapping (`dict[str, Any]`), in the shapes the agents use. */
  datatype Value =
    | VNone
    | VBool(b: bool)
    | VInt(i: int)
    | VStr(s: string)
    | VUuid(u: Uuid)
    | VList(items: seq<Value>)
    | VDict(entries: map<string, Value>)

  /** `dict[str, Any]` */
  type Payload = map<string, Value>

  // ---------------------------------------------------------------- enumerations

  datatype TaskStatus = Pending | Running | Completed | Failed | Cancelled | Timeout
  {
    /** PENDING and RUNNING are transient; every other status ends the lifecycle. */
    predicate IsTerminal() {
      !Pending? && !Running?
    }
  }

  datatype SwarmMessageType =
    | MissionCreated | TaskCreated | TaskAssigned | TaskResult | Heartbeat | Control

  const AllTaskStatuses: seq<TaskStatus> := [Pending, Running, Completed, Failed, Cancelled, Timeout]

  const AllMessageTypes: seq<SwarmMessageType> :=
    [MissionCreated, TaskCreated, TaskAssigned, TaskResult, Heartbeat, Control]

  /** TaskStatus has exactly six members, all listed once. */
  lemma TaskStatusHasSixValues()
    ensures |AllTaskStatuses| == 6
    ensures forall s: TaskStatus :: s in AllTaskStatuses
    ensures forall i, j :: 0 <= i < j < |AllTaskStatuses| ==> AllTaskStatuses[i] != AllTaskStatuses[j]
  {
    forall s: TaskStatus ensures s in AllTaskStatuses {
      var k := match s
        case Pending => 0 case Running => 1 case Completed => 2
        case Failed => 3 case Cancelled => 4 case Timeout => 5;
      assert AllTaskStatuses[k] == s;
    }
  }

  /** SwarmMessageType has exactly six members, all listed once. */
  lemma MessageTypeHasSixKinds()
    ensures |AllMessageTypes| == 6
    ensures forall t: SwarmMessageType :: t in AllMessageTypes
    ensures forall i, j :: 0 <= i < j < |AllMessageTypes| ==> AllMessageTypes[i] != AllMessageTypes[j]
  {
    forall t: SwarmMessageType ensures t in AllMessageTypes {
      var k := match t
        case MissionCreated => 0 case TaskCreated => 1 case TaskAssigned => 2
        case TaskResult => 3 case Heartbeat => 4 case Control => 5;
      assert AllMessageTypes[k] == t;
    }
  }

  /** The string value of a TaskStatus member (it is a StrEnum). */
  function StatusName(s: TaskStatus): string {
    match s
    case Pending => "PENDING"
    case Running => "RUNNING"
    case Completed => "COMPLETED"
    case Failed => "FAILED"
    case Cancelled => "CANCELLED"
    case Timeout => "TIMEOUT"
  }

  /** The TaskStatus whose value is `name`, if there is one. */
  function ParseStatus(name: string): (r: Option<TaskStatus>)
    ensures r.Some? ==> StatusName(r.value) == name
    ensures forall s :: StatusName(s) == name ==> r == Some(s)
  {
    if name == "PENDING" then Some(Pending)
    else if name == "RUNNING" then Some(Running)
    else if name == "COMPLETED" then Some(Completed)
    else if name == "FAILED" then Some(Failed)
    else if name == "CANCELLED" then Some(Cancelled)
    else if name == "TIMEOUT" then Some(Timeout)
    else None
  }

  /**
   * Each member's value is its own upper-case name: parsing it gives the
   * member back, and no two members share a value.
   */
  lemma StatusNameRoundTrip(s: TaskStatus)
    ensures ParseStatus(StatusName(s)) == Some(s)
    ensures forall t :: StatusName(t) == StatusName(s) ==> t == s
    ensures StatusName(s) in {"PENDING", "RUNNING", "COMPLETED", "FAILED", "CANCELLED", "TIMEOUT"}
  {
  }

  // ---------------------------------------------------------------- records

  /**
   * A unit of work. The constructor carries the record's defaults: a Task is
   * built from an id, `missionId`, `kind` and `payload`, and everything else
   * defaults (status PENDING, no parent, no agent, no result, no error).
   * Timestamps are not modelled.
   */
  datatype Task = Task(
    id: Uuid,
    missionId: Uuid,
    parentId: Option<Uuid> := None,
    kind: string,
    payload: Payload,
    status: TaskStatus := Pending,
    assignedAgent: Option<string> := None,
    result: Option<Payload> := None,
    error: Option<string> := None)

  /** The message envelope; `messageType` is the source's `type` field. */
  datatype SwarmMessage = SwarmMessage(
    id: Uuid,
    missionId: Uuid,
    taskId: Option<Uuid> := None,
    sourceAgent: Option<string> := None,
    targetAgent: Option<string> := None,
    channel: string,
    messageType: SwarmMessageType,
    payload: Payload,
    correlationId: Option<Uuid> := None)

  /** A Task built from its required fields alone is PENDING with every optional field absent. */
  lemma TaskDefaults(id: Uuid, missionId: Uuid, kind: string, payload: Payload)
    ensures var t := Task(id, missionId, kind := kind, payload := payload);
      && t.id == id && t.missionId == missionId && t.kind == kind && t.payload == payload
      && t.status == Pending && t.parentId == None && t.assignedAgent == None
      && t.result == None && t.error == None
  {
  }

  /** A message built from its required fields alone has no task, agents or correlation. */
  lemma MessageDefaults(id: Uuid, missionId: Uuid, channel: string, kind: SwarmMessageType, payload: Payload)
    ensures var m := SwarmMessage(id, missionId, channel := channel, messageType := kind, payload := payload);
      && m.id == id && m.missionId == missionId && m.channel == channel
      && m.messageType == kind && m.payload == payload
      && m.taskId == None && m.sourceAgent == None && m.targetAgent == None && m.correlationId == None
  {
  }

  // ---------------------------------------------------------------- dictionary form of a Task

  function UuidOrNone(o: Option<Uuid>): Value {
    match o
    case None => VNone
    case Some(u) => VUuid(u)
  }

  function StrOrNone(o: Option<string>): Value {
    match o
    case None => VNone
    case Some(s) => VStr(s)
  }

  function DictOrNone(o: Option<Payload>): Value {
    match o
    case None => VNone
    case Some(d) => VDict(d)
  }

  const TaskFieldNames: set<string> :=
    {"id", "mission_id", "parent_id", "kind", "payload", "status", "assigned_agent", "result", "error"}

  /** `task.model_dump()`: the Task as a dictionary keyed by its field names. */
  function DumpTask(t: Task): (v: Value)
    ensures v.VDict? && v.entries.Keys == TaskFieldNames
  {
    VDict(map[
      "id" := VUuid(t.id),
      "mission_id" := VUuid(t.missionId),
      "parent_id" := UuidOrNone(t.parentId),
      "kind" := VStr(t.kind),
      "payload" := VDict(t.payload),
      "status" := VStr(StatusName(t.status)),
      "assigned_agent" := StrOrNone(t.assignedAgent),
      "result" := DictOrNone(t.result),
      "error" := StrOrNone(t.error)])
  }

  function DecodeUuid(v: Value): Result<Uuid> {
    if v.VUuid? then Ok(v.u) else Err("Input should be a valid UUID")
  }

  function DecodeStr(v: Value): Result<string> {
    if v.VStr? then Ok(v.s) else Err("Input should be a valid string")
  }

  function DecodeDict(v: Value): Result<Payload> {
    if v.VDict? then Ok(v.entries) else Err("Input should be a valid dictionary")
  }

  function DecodeStatus(v: Value): Result<TaskStatus> {
    if v.VStr? && ParseStatus(v.s).Some? then Ok(ParseStatus(v.s).value)
    else Err("Input should be a valid TaskStatus")
  }

  /** A field with no default: missing is an error. */
  function Required<T>(d: Payload, name: string, decode: Value -> Result<T>): Result<T> {
    if name in d then decode(d[name]) else Err("Field required: " + name)
  }

  /** A non-nullable field with a default: missing takes the default, None is an error. */
  function Defaulted<T>(d: Payload, name: string, decode: Value -> Result<T>, default: T): Result<T> {
    if name in d then decode(d[name]) else Ok(default)
  }

  /** A field of type `X | None = None`: missing or None gives None. */
  function Nullable<T>(d: Payload, name: string, decode: Value -> Result<T>): Result<Option<T>> {
    if name !in d || d[name] == VNone then Ok(None)
    else
      match decode(d[name])
      case Ok(x) => Ok(Some(x))
      case Err(e) => Err(e)
  }

  /**
   * `Task.model_validate(v)`: rebuild a Task from its dictionary form, or fail.
   * `freshId` is the id the default factory would draw when "id" is missing.
   * Keys other than the Task's fields are ignored.
   */
  function ValidateTask(v: Value, freshId: Uuid): (r: Result<Task>)
    ensures r.Ok? ==> v.VDict? && "mission_id" in v.entries && "kind" in v.entries && "payload" in v.entries
    ensures r.Ok? ==>
      && v.entries["mission_id"] == VUuid(r.value.missionId)
      && v.entries["kind"] == VStr(r.value.kind)
      && v.entries["payload"] == VDict(r.value.payload)
    ensures r.Ok? && "id" !in v.entries ==> r.value.id == freshId
    ensures r.Ok? && "status" !in v.entries ==> r.value.status == Pending
  {
    if !v.VDict? then Err("Input should be a valid dictionary")
    else
      var d := v.entries;
      var id :- Defaulted(d, "id", DecodeUuid, freshId);
      var missionId :- Required(d, "mission_id", DecodeUuid);
      var parentId :- Nullable(d, "parent_id", DecodeUuid);
      var kind :- Required(d, "kind", DecodeStr);
      var payload :- Required(d, "payload", DecodeDict);
      var status :- Defaulted(d, "status", DecodeStatus, Pending);
      var assignedAgent :- Nullable(d, "assigned_agent", DecodeStr);
      var result :- Nullable(d, "result", DecodeDict);
      var error :- Nullable(d, "error", DecodeStr);
      Ok(Task(id, missionId, parentId, kind, payload, status, assignedAgent, result, error))
  }

  /** Validating a dumped Task gives the same Task back, field for field. */
  lemma TaskRoundTrip(t: Task, freshId: Uuid)
    ensures ValidateTask(DumpTask(t), freshId) == Ok(t)
  {
    var d := DumpTask(t).entries;
    StatusNameRoundTrip(t.status);
    assert Defaulted(d, "id", DecodeUuid, freshId) == Ok(t.id);
    assert Required(d, "mission_id", DecodeUuid) == Ok(t.missionId);
    assert Nullable(d, "parent_id", DecodeUuid) == Ok(t.parentId);
    assert Required(d, "kind", DecodeStr) == Ok(t.kind);
    assert Required(d, "payload", DecodeDict) == Ok(t.payload);
    assert Defaulted(d, "status", DecodeStatus, Pending) == Ok(t.status);
    assert Nullable(d, "assigned_agent", DecodeStr) == Ok(t.assignedAgent);
    assert Nullable(d, "result", DecodeDict) == Ok(t.result);
    assert Nullable(d, "error", DecodeStr) == Ok(t.error);
  }
}
