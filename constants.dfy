/** Constants and enumerations of the diagnosis system. */
module Constants {
  import opened Wrappers

  // Time intervals, in seconds.
  const MIN_DIAGNOSIS_INTERVAL: int := 30
  const AGENT_PERIODICALLY_REPORT_INTERVAL_SECS: int := 30
  const MIN_DATA_COLLECT_INTERVAL: int := 30

  /** The instance name of every action the local agent decides. */
  const LOCAL_INSTANCE: string := "local"

  // Error kinds reported by the diagnosis system.
  const NODE_FAILED: string := "NODE_FAILED"
  const RESOURCE_COLLECT_ERROR: string := "RESOURCE_COLLECT_ERROR"
  const TRAINING_HANG: string := "TRAINING_HANG"
  const GPU_ERROR: string := "GPU_ERROR"
  const NETWORK_ERROR: string := "NETWORK_ERROR"
  const OOM_ERROR: string := "OOM_ERROR"

  // Names of the environment variables the agent reads.
  const XPU_TIMER_PORT: string := "CHEN1110_XPU_TIMER_PORT"
  const MASTER_ADDR: string := "CHEN1110_MASTER_ADDR"
  const NODE_ID: string := "CHEN1110_NODE_ID"
  const NODE_TYPE: string := "CHEN1110_NODE_TYPE"
  const NODE_RANK: string := "CHEN1110_NODE_RANK"
  const NODE_IP: string := "NODE_IP"
  const MONITOR_ENABLED: string := "CHEN1110_MONITOR_ENABLED"
  const LOCAL_RANK: string := "LOCAL_RANK"
  const WORLD_SIZE: string := "WORLD_SIZE"
  const RANK: string := "RANK"

  /** The kind of a diagnosis metric; metrics are partitioned by its name. */
  datatype DataType = ResourceStats | XpuTimerMetric | TrainingLog | StackTrace | TrainingMetric {
    /** The Python enum member's name, used as the key in stores and in encoded metrics. */
    function Name(): string {
      match this
      case ResourceStats => "RESOURCE_STATS"
      case XpuTimerMetric => "XPU_TIMER_METRIC"
      case TrainingLog => "TRAINING_LOG"
      case StackTrace => "STACK_TRACE"
      case TrainingMetric => "TRAINING_METRIC"
    }
  }

  /** The kind of remediation a diagnosis decides. */
  datatype ActionType = NoAction | RestartWorker | RelaunchWorker | RestartNode | StopJob {
    function Name(): string {
      match this
      case NoAction => "NO_ACTION"
      case RestartWorker => "RESTART_WORKER"
      case RelaunchWorker => "RELAUNCH_WORKER"
      case RestartNode => "RESTART_NODE"
      case StopJob => "STOP_JOB"
    }
  }

  /** `DiagnosisDataType[name]`: lookup by member name; an unknown name raises KeyError (None). */
  function DataTypeFromName(name: string): (r: Option<DataType>)
    ensures r.Some? ==> r.value.Name() == name
    ensures r.None? ==> forall t: DataType :: t.Name() != name
  {
    if name == "RESOURCE_STATS" then Some(ResourceStats)
    else if name == "XPU_TIMER_METRIC" then Some(XpuTimerMetric)
    else if name == "TRAINING_LOG" then Some(TrainingLog)
    else if name == "STACK_TRACE" then Some(StackTrace)
    else if name == "TRAINING_METRIC" then Some(TrainingMetric)
    else None
  }

  /** `DiagnosisActionType[name]`: lookup by member name; an unknown name raises KeyError (None). */
  function ActionTypeFromName(name: string): (r: Option<ActionType>)
    ensures r.Some? ==> r.value.Name() == name
    ensures r.None? ==> forall t: ActionType :: t.Name() != name
  {
    if name == "NO_ACTION" then Some(NoAction)
    else if name == "RESTART_WORKER" then Some(RestartWorker)
    else if name == "RELAUNCH_WORKER" then Some(RelaunchWorker)
    else if name == "RESTART_NODE" then Some(RestartNode)
    else if name == "STOP_JOB" then Some(StopJob)
    else None
  }

  /** Encoding a data type by name and looking the name up gives the type back. */
  lemma DataTypeNameRoundTrip(t: DataType)
    ensures DataTypeFromName(t.Name()) == Some(t)
  {
  }

  lemma ActionTypeNameRoundTrip(t: ActionType)
    ensures ActionTypeFromName(t.Name()) == Some(t)
  {
  }

  /** Distinct data types have distinct names, so the store's partitions never mix types. */
  lemma DataTypeNamesDistinct(a: DataType, b: DataType)
    ensures a.Name() == b.Name() ==> a == b
  {
  }
}
