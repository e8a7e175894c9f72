/**
 * The records the diagnosis system exchanges: worker metrics and diagnosis actions, with
 * their encoding to and decoding from JSON objects (the dicts handed to `json.dumps` and
 * returned by `json.loads`).
 */
module DiagnosisData {
  import opened Wrappers
  import opened Json
  import Constants

  /** One metric reported by a worker. A timestamp of 0 means "not stamped yet". */
  datatype WorkerTrainingMetric = WorkerTrainingMetric(
    dataType: Constants.DataType,
    dataContent: string,
    nodeId: int,
    nodeType: string,
    nodeRank: int,
    timestamp: int)

  /** A remediation decision; `nodeId` and `nodeType` are Python's optional fields. */
  datatype DiagnosisAction = DiagnosisAction(
    actionType: Constants.ActionType,
    nodeId: Option<int>,
    nodeType: Option<string>,
    instance: string,
    reason: string,
    details: JsonObject)

  /** Why a JSON object does not decode: the exceptions `from_json` raises. */
  datatype DecodeError = MissingKey(key: string) | UnknownName(name: string) | WrongType(key: string)

  const METRIC_KEYS: set<string> :=
    {"data_type", "data_content", "node_id", "node_type", "node_rank", "timestamp"}
  const ACTION_KEYS: set<string> :=
    {"action_type", "node_id", "node_type", "instance", "reason", "details"}

  /** `NoAction()`: action type NO_ACTION, every other field at its default. */
  function NoAction(): (a: DiagnosisAction)
    ensures a.actionType == Constants.NoAction
    ensures a.nodeId == None && a.nodeType == None
    ensures a.instance == "" && a.reason == "" && a.details == map[]
  {
    DiagnosisAction(Constants.NoAction, None, None, "", "", map[])
  }

  /** `NodeAction(...)`: copies its five arguments and has no details. */
  function NodeAction(
    nodeId: int, nodeType: string, instance: string, actionType: Constants.ActionType, reason: string)
    : (a: DiagnosisAction)
    ensures a.actionType == actionType && a.nodeId == Some(nodeId) && a.nodeType == Some(nodeType)
    ensures a.instance == instance && a.reason == reason && a.details == map[]
  {
    DiagnosisAction(actionType, Some(nodeId), Some(nodeType), instance, reason, map[])
  }

  // ---- WorkerTrainingMetric <-> JSON object -----------------------------------------------

  /** `WorkerTrainingMetric.to_json`, before the text encoding: the type by name, all six fields. */
  function MetricToJson(m: WorkerTrainingMetric): (d: JsonObject)
    ensures d.Keys == METRIC_KEYS
  {
    map[
      "data_type" := JStr(m.dataType.Name()),
      "data_content" := JStr(m.dataContent),
      "node_id" := JInt(m.nodeId),
      "node_type" := JStr(m.nodeType),
      "node_rank" := JInt(m.nodeRank),
      "timestamp" := JInt(m.timestamp)]
  }

  /** `data[key]` for a string-valued field that must be present. */
  function RequiredStr(d: JsonObject, key: string): (r: Result<string, DecodeError>)
    ensures key !in d ==> r == Failure(MissingKey(key))
    ensures r.Success? ==> key in d && d[key] == JStr(r.value)
  {
    if key !in d then Failure(MissingKey(key))
    else if d[key].JStr? then Success(d[key].s)
    else Failure(WrongType(key))
  }

  /** `data.get(key, default)` for an integer field; another JSON type is rejected. */
  function IntOr(d: JsonObject, key: string, default: int): (r: Result<int, DecodeError>)
    ensures key !in d ==> r == Success(default)
    ensures key in d && r.Success? ==> d[key] == JInt(r.value)
  {
    if key !in d then Success(default)
    else if d[key].JInt? then Success(d[key].i)
    else Failure(WrongType(key))
  }

  /** `data.get(key, default)` for a string field; another JSON type is rejected. */
  function StrOr(d: JsonObject, key: string, default: string): (r: Result<string, DecodeError>)
    ensures key !in d ==> r == Success(default)
    ensures key in d && r.Success? ==> d[key] == JStr(r.value)
  {
    if key !in d then Success(default)
    else if d[key].JStr? then Success(d[key].s)
    else Failure(WrongType(key))
  }

  /** `data.get(key)` for an optional integer: absent and JSON null both give None. */
  function OptIntOf(d: JsonObject, key: string): (r: Result<Option<int>, DecodeError>)
    ensures key !in d ==> r == Success(None)
  {
    if key !in d || d[key].JNull? then Success(None)
    else if d[key].JInt? then Success(Some(d[key].i))
    else Failure(WrongType(key))
  }

  /** `data.get(key)` for an optional string: absent and JSON null both give None. */
  function OptStrOf(d: JsonObject, key: string): (r: Result<Option<string>, DecodeError>)
    ensures key !in d ==> r == Success(None)
  {
    if key !in d || d[key].JNull? then Success(None)
    else if d[key].JStr? then Success(Some(d[key].s))
    else Failure(WrongType(key))
  }

  /**
   * `WorkerTrainingMetric.from_json`, after the text decoding. `data_type` and
   * `data_content` must be present; the type name must be a member's name; the node
   * fields and the timestamp default to -1, "", -1 and 0.
   */
  function MetricFromJson(d: JsonObject): (r: Result<WorkerTrainingMetric, DecodeError>)
    ensures "data_type" !in d ==> r == Failure(MissingKey("data_type"))
    ensures ("data_type" in d && d["data_type"].JStr? &&
             Constants.DataTypeFromName(d["data_type"].s).None?) ==> r.Failure?
    ensures "data_content" !in d ==> r.Failure?
    ensures r.Success? ==> d["data_type"] == JStr(r.value.dataType.Name())
  {
    if "data_type" !in d then Failure(MissingKey("data_type"))
    else if !d["data_type"].JStr? then Failure(WrongType("data_type"))
    else
      match Constants.DataTypeFromName(d["data_type"].s)
      case None => Failure(UnknownName(d["data_type"].s))
      case Some(dataType) =>
        match (RequiredStr(d, "data_content"), IntOr(d, "node_id", -1), StrOr(d, "node_type", ""),
               IntOr(d, "node_rank", -1), IntOr(d, "timestamp", 0))
        case (Success(content), Success(nodeId), Success(nodeType), Success(nodeRank), Success(ts)) =>
          Success(WorkerTrainingMetric(dataType, content, nodeId, nodeType, nodeRank, ts))
        case (Failure(e), _, _, _, _) => Failure(e)
        case (_, Failure(e), _, _, _) => Failure(e)
        case (_, _, Failure(e), _, _) => Failure(e)
        case (_, _, _, Failure(e), _) => Failure(e)
        case (_, _, _, _, Failure(e)) => Failure(e)
  }

  /** Decoding an encoded metric gives back all six fields. */
  lemma MetricRoundTrip(m: WorkerTrainingMetric)
    ensures MetricFromJson(MetricToJson(m)) == Success(m)
  {
    Constants.DataTypeNameRoundTrip(m.dataType);
  }

  /** A metric given only its type and content decodes with the documented defaults. */
  lemma MetricDefaults(t: Constants.DataType, content: string)
    ensures MetricFromJson(map["data_type" := JStr(t.Name()), "data_content" := JStr(content)])
         == Success(WorkerTrainingMetric(t, content, -1, "", -1, 0))
  {
    Constants.DataTypeNameRoundTrip(t);
  }

  /** Whatever decodes agrees with its own encoding on every key the object holds. */
  lemma MetricDecodeAgreesWithEncode(d: JsonObject)
    requires MetricFromJson(d).Success?
    ensures forall k <- d.Keys * METRIC_KEYS :: d[k] == MetricToJson(MetricFromJson(d).value)[k]
  {
  }

  // ---- DiagnosisAction <-> JSON object ----------------------------------------------------

  function OptIntToJson(v: Option<int>): Json {
    match v
    case Some(i) => JInt(i)
    case None => JNull
  }

  function OptStrToJson(v: Option<string>): Json {
    match v
    case Some(s) => JStr(s)
    case None => JNull
  }

  /** `DiagnosisAction.to_json`, before the text encoding: None fields become JSON null. */
  function ActionToJson(a: DiagnosisAction): (d: JsonObject)
    ensures d.Keys == ACTION_KEYS
  {
    map[
      "action_type" := JStr(a.actionType.Name()),
      "node_id" := OptIntToJson(a.nodeId),
      "node_type" := OptStrToJson(a.nodeType),
      "instance" := JStr(a.instance),
      "reason" := JStr(a.reason),
      "details" := JObj(a.details)]
  }

  /** `data.get("details", {})`. */
  function DetailsOf(d: JsonObject): (r: Result<JsonObject, DecodeError>)
    ensures "details" !in d ==> r == Success(map[])
  {
    if "details" !in d then Success(map[])
    else if d["details"].JObj? then Success(d["details"].fields)
    else Failure(WrongType("details"))
  }

  /**
   * `DiagnosisAction.from_json`, after the text decoding: `action_type` must be present
   * and name a member; node_id and node_type default to None, instance and reason to "",
   * details to the empty object.
   */
  function ActionFromJson(d: JsonObject): (r: Result<DiagnosisAction, DecodeError>)
    ensures "action_type" !in d ==> r == Failure(MissingKey("action_type"))
    ensures ("action_type" in d && d["action_type"].JStr? &&
             Constants.ActionTypeFromName(d["action_type"].s).None?) ==> r.Failure?
    ensures r.Success? ==> d["action_type"] == JStr(r.value.actionType.Name())
  {
    if "action_type" !in d then Failure(MissingKey("action_type"))
    else if !d["action_type"].JStr? then Failure(WrongType("action_type"))
    else
      match Constants.ActionTypeFromName(d["action_type"].s)
      case None => Failure(UnknownName(d["action_type"].s))
      case Some(actionType) =>
        match (OptIntOf(d, "node_id"), OptStrOf(d, "node_type"), StrOr(d, "instance", ""),
               StrOr(d, "reason", ""), DetailsOf(d))
        case (Success(nodeId), Success(nodeType), Success(instance), Success(reason), Success(details)) =>
          Success(DiagnosisAction(actionType, nodeId, nodeType, instance, reason, details))
        case (Failure(e), _, _, _, _) => Failure(e)
        case (_, Failure(e), _, _, _) => Failure(e)
        case (_, _, Failure(e), _, _) => Failure(e)
        case (_, _, _, Failure(e), _) => Failure(e)
        case (_, _, _, _, Failure(e)) => Failure(e)
  }

  /** Decoding an encoded action gives it back, details included. */
  lemma ActionRoundTrip(a: DiagnosisAction)
    ensures ActionFromJson(ActionToJson(a)) == Success(a)
  {
    Constants.ActionTypeNameRoundTrip(a.actionType);
  }

  /** An action given only its type decodes with the documented defaults. */
  lemma ActionDefaults(t: Constants.ActionType)
    ensures ActionFromJson(map["action_type" := JStr(t.Name())])
         == Success(DiagnosisAction(t, None, None, "", "", map[]))
  {
    Constants.ActionTypeNameRoundTrip(t);
  }

  /**
   * Only the type of an encoded `NoAction()` is set; it decodes to a record with the fields
   * of `NoAction()` (the model has no subclasses, so equality here is field by field).
   */
  lemma NoActionRoundTrip()
    ensures ActionFromJson(ActionToJson(NoAction())) == Success(NoAction())
    ensures ActionToJson(NoAction())["node_id"] == JNull
  {
    ActionRoundTrip(NoAction());
  }
}
