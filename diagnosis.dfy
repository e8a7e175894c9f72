/**
 * `DiagnosisAgent`: keeps the registry of periodic data collectors (collector -> interval),
 * sets up the default collectors, runs one collection step for a collector, decides what to
 * do about a failed training process, and holds the agent's configuration. The collector
 * threads and the heartbeat loop are replaced by the single step `CollectorTick`; the
 * outside world of one step (environment, log files, HTTP response, thread snapshot, clock)
 * is the parameter `Inputs`.
 */
module Diagnosis {
  import opened Wrappers
  import opened Utils
  import opened DiagnosisData
  import opened DataCollector
  import Constants
  import MC = MetricCollector
  import LC = LogCollector
  import SC = StackCollector
  import RC = ResourceCollector

  /**
   * A registered collector. The registry is keyed by collector object, so two collectors of
   * the same class are two entries, and the same object is one.
   */
  datatype CollectorRef =
    | Resource(resource: RC.ResourceCollector)
    | Metric(metric: MC.MetricCollector)
    | Log(log: LC.LogCollector)
    | Stack(stack: SC.StackCollector)

  /** What one collection step sees of the outside world. */
  datatype Inputs = Inputs(
    env: Env,
    logFiles: LC.Files,
    portOpen: bool,                          // the metric port accepts a connection
    response: Option<string>,                // the HTTP response body, None when the request fails
    snapshot: Option<seq<ThreadEntry>>,      // the thread snapshot, None when taking it raises
    now: int,
    readOk: bool,                            // reading the log file does not raise
    reportOk: bool)                          // reporting to the master does not raise

  /** The objects a collector step may change. */
  function Footprint(c: CollectorRef): set<object> {
    match c
    case Resource(r) => {r}
    case Metric(m) => {m}
    case Log(l) => {l}
    case Stack(s) => {s}
  }

  /** `collector.is_enabled()`. */
  predicate Enabled(c: CollectorRef, inp: Inputs)
    reads Footprint(c)
  {
    match c
    case Resource(r) => r.IsEnabled()
    case Metric(m) => m.IsEnabled(inp.portOpen)
    case Log(l) => l.IsEnabled(inp.logFiles)
    case Stack(s) => s.IsEnabled()
  }

  /** A registration interval below the minimum is raised to it; any other is kept. */
  function ClampedInterval(interval: int): (r: int)
    ensures r >= Constants.MIN_DATA_COLLECT_INTERVAL
    ensures interval >= Constants.MIN_DATA_COLLECT_INTERVAL ==> r == interval
    ensures interval < Constants.MIN_DATA_COLLECT_INTERVAL ==> r == Constants.MIN_DATA_COLLECT_INTERVAL
  {
    if interval < Constants.MIN_DATA_COLLECT_INTERVAL then Constants.MIN_DATA_COLLECT_INTERVAL else interval
  }

  const MAX_RESTARTS := 3

  /**
   * `diagnose_training_failure`: restart the worker while fewer than three restarts were
   * attempted, relaunch it after that; always for the local instance and this node, never
   * NO_ACTION. The failures dict only feeds a log line.
   */
  function DiagnoseTrainingFailure(env: Env, restartCount: int): (a: DiagnosisAction)
    ensures a.actionType == Constants.RestartWorker <==> restartCount < MAX_RESTARTS
    ensures a.actionType == Constants.RelaunchWorker <==> restartCount >= MAX_RESTARTS
    ensures a.actionType != Constants.NoAction
    ensures a.instance == Constants.LOCAL_INSTANCE && a.details == map[]
    ensures a.nodeId == Some(GetNodeId(env)) && a.nodeType == Some(GetNodeType(env))
  {
    if restartCount < MAX_RESTARTS then
      NodeAction(GetNodeId(env), GetNodeType(env), Constants.LOCAL_INSTANCE, Constants.RestartWorker,
                 "Training process failed, restarting worker")
    else
      NodeAction(GetNodeId(env), GetNodeType(env), Constants.LOCAL_INSTANCE, Constants.RelaunchWorker,
                 "Max restart attempts reached, relaunching node")
  }

  /** Once the decision is to relaunch, it stays so for every higher restart count. */
  lemma RelaunchIsFinal(env: Env, k: int, later: int)
    requires DiagnoseTrainingFailure(env, k).actionType == Constants.RelaunchWorker && later >= k
    ensures DiagnoseTrainingFailure(env, later).actionType == Constants.RelaunchWorker
  {
  }

  /** A decision survives the JSON encoding the master receives, field by field. */
  lemma DiagnosisRoundTrip(env: Env, restartCount: int)
    ensures ActionFromJson(ActionToJson(DiagnoseTrainingFailure(env, restartCount)))
         == Success(DiagnoseTrainingFailure(env, restartCount))
  {
    ActionRoundTrip(DiagnoseTrainingFailure(env, restartCount));
  }

  /** The three settings `update_config` can change. */
  datatype AgentConfig = AgentConfig(trainingLogFile: string, errors: string, nodeRank: int)

  /**
   * `update_config`: the log file and the errors are replaced only by non-empty values, the
   * node rank only by a non-negative one.
   */
  function UpdatedConfig(c: AgentConfig, trainingLogFile: string, errors: string, nodeRank: int): (r: AgentConfig)
    ensures r.trainingLogFile == (if trainingLogFile != "" then trainingLogFile else c.trainingLogFile)
    ensures r.errors == (if errors != "" then errors else c.errors)
    ensures r.nodeRank == (if nodeRank >= 0 then nodeRank else c.nodeRank)
  {
    AgentConfig(
      if trainingLogFile != "" then trainingLogFile else c.trainingLogFile,
      if errors != "" then errors else c.errors,
      if nodeRank >= 0 then nodeRank else c.nodeRank)
  }

  /** An update with the default arguments changes nothing, and repeating an update changes nothing more. */
  lemma UpdateConfigStable(c: AgentConfig, trainingLogFile: string, errors: string, nodeRank: int)
    ensures UpdatedConfig(c, "", "", -1) == c
    ensures var u := UpdatedConfig(c, trainingLogFile, errors, nodeRank);
      UpdatedConfig(u, trainingLogFile, errors, nodeRank) == u
  {
  }

  class DiagnosisAgent {
    var config: AgentConfig
    const localWorldSize: int
    var stopped: bool
    /** `_periodical_collectors`: collector -> interval in seconds. */
    var collectors: map<CollectorRef, int>

    /** `__init__(training_log_file="", errors="", node_rank=-1, local_world_size=0)`. */
    constructor (trainingLogFile: string := "", errors: string := "", nodeRank: int := -1, localWorldSize: int := 0)
      ensures config == AgentConfig(trainingLogFile, errors, nodeRank)
      ensures this.localWorldSize == localWorldSize
      ensures !stopped && collectors == map[]
    {
      config := AgentConfig(trainingLogFile, errors, nodeRank);
      this.localWorldSize := localWorldSize;
      stopped := false;
      collectors := map[];
    }

    /**
     * `register_periodical_data_collector`: records the collector with its interval raised
     * to the minimum, overwriting an earlier registration of the same collector.
     */
    method RegisterPeriodicalDataCollector(c: CollectorRef, interval: int)
      modifies this
      ensures collectors == old(collectors)[c := ClampedInterval(interval)]
      ensures |collectors.Keys| == |old(collectors).Keys| + (if c in old(collectors) then 0 else 1)
      ensures config == old(config) && stopped == old(stopped)
    {
      collectors := collectors[c := ClampedInterval(interval)];
    }

    /**
     * `_setup_default_collectors`: registers new resource (30 s), metric (60 s) and stack
     * (120 s) collectors, and a log collector (60 s) for the training log only when one is
     * configured. The new collectors are returned for the contract's sake.
     */
    method SetupDefaultCollectors(env: Env)
      returns (ghost resource: RC.ResourceCollector, ghost metric: MC.MetricCollector,
               ghost log: Option<LC.LogCollector>, ghost stack: SC.StackCollector)
      modifies this
      ensures fresh(resource) && fresh(metric) && fresh(stack)
      ensures log.Some? <==> config.trainingLogFile != ""
      ensures log.Some? ==> fresh(log.value) && log.value.logFilePath == Some(config.trainingLogFile)
      ensures log.Some? ==> log.value.maxLines == 1000 && log.value.lastPosition == 0 && !log.value.hasClient
      ensures metric.metricEndpoint == MC.Endpoint(LookupEnv(env, Constants.XPU_TIMER_PORT))
      ensures stack.enabled
      ensures var base := old(collectors)[Resource(resource) := 30][Metric(metric) := 60];
        collectors == (if log.Some? then base[Log(log.value) := 60] else base)[Stack(stack) := 120]
      ensures |collectors.Keys| == |old(collectors).Keys| + (if config.trainingLogFile != "" then 4 else 3)
      ensures config == old(config) && stopped == old(stopped)
    {
      var r := new RC.ResourceCollector();
      RegisterPeriodicalDataCollector(Resource(r), 30);
      var m := new MC.MetricCollector(env);
      RegisterPeriodicalDataCollector(Metric(m), 60);
      log := None;
      if config.trainingLogFile != "" {
        var l := new LC.LogCollector(Some(config.trainingLogFile));
        RegisterPeriodicalDataCollector(Log(l), 60);
        log := Some(l);
      }
      var s := new SC.StackCollector();
      RegisterPeriodicalDataCollector(Stack(s), 120);
      resource, metric, stack := r, m, s;
    }

    /**
     * `start`: sets up the default collectors (the threads are not modelled) and clears the
     * stop flag. The registry gains exactly the new collectors with their default intervals;
     * earlier entries keep theirs. The new collectors are returned for the contract's sake.
     */
    method Start(env: Env)
      returns (ghost resource: RC.ResourceCollector, ghost metric: MC.MetricCollector,
               ghost log: Option<LC.LogCollector>, ghost stack: SC.StackCollector)
      modifies this
      ensures !stopped && config == old(config)
      ensures fresh(resource) && fresh(metric) && fresh(stack)
      ensures log.Some? <==> config.trainingLogFile != ""
      ensures log.Some? ==> fresh(log.value) && log.value.logFilePath == Some(config.trainingLogFile)
      ensures var base := old(collectors)[Resource(resource) := 30][Metric(metric) := 60];
        collectors == (if log.Some? then base[Log(log.value) := 60] else base)[Stack(stack) := 120]
      ensures |collectors.Keys| == |old(collectors).Keys| + (if config.trainingLogFile != "" then 4 else 3)
      ensures forall k <- old(collectors) :: k in collectors && collectors[k] == old(collectors)[k]
    {
      resource, metric, log, stack := SetupDefaultCollectors(env);
      stopped := false;
    }

    /** `stop`: sets the stop flag; with no threads to join it is safe at any time, and repeatable. */
    method Stop()
      modifies this
      ensures stopped
      ensures config == old(config) && collectors == old(collectors)
    {
      stopped := true;
    }

    /** `update_config`. */
    method UpdateConfig(trainingLogFile: string := "", errors: string := "", nodeRank: int := -1)
      modifies this
      ensures config == UpdatedConfig(old(config), trainingLogFile, errors, nodeRank)
      ensures collectors == old(collectors) && stopped == old(stopped)
    {
      config := UpdatedConfig(config, trainingLogFile, errors, nodeRank);
    }
  }

  /**
   * One step of a collector's periodic loop: nothing when `is_enabled()` is false; otherwise
   * `collect_data()`, then `store_data(data)` exactly when the data is not None (an empty
   * string or dict is still stored). `stored` says whether `store_data` ran and `metric` is
   * the metric it built.
   */
  method CollectorTick(c: CollectorRef, inp: Inputs) returns (data: Collected, stored: bool, metric: Option<WorkerTrainingMetric>)
    modifies Footprint(c)
    ensures stored <==> old(Enabled(c, inp)) && data != NoData
    ensures !old(Enabled(c, inp)) ==> data == NoData && metric == None
    ensures metric.Some? ==> stored
    ensures !old(Enabled(c, inp)) ==> forall o <- Footprint(c) :: unchanged(o)
    ensures c.Resource? ==> data == NoData && c.resource.reports == old(c.resource.reports) + 1
    ensures c.Metric? && old(Enabled(c, inp)) ==>
      data == c.metric.CollectData(inp.portOpen, inp.response) && metric == c.metric.StoreData(data, inp.env)
    ensures c.Stack? && old(Enabled(c, inp)) ==>
      data == c.stack.CollectData(inp.snapshot) && metric == c.stack.StoreData(data, inp.env)
    ensures c.Log? && old(Enabled(c, inp)) ==>
      var text := inp.logFiles[c.log.logFilePath.value];
      && data.Text?
      && data.text == (if inp.readOk then LC.TailText(old(c.log.NewContent(text)), c.log.maxLines) else "")
      && c.log.lastPosition == (if inp.readOk then old(c.log.EndPosition(text)) else old(c.log.lastPosition))
      && metric == (if data.text == "" then None else
           Some(WorkerTrainingMetric(Constants.TrainingLog, data.text, GetNodeId(inp.env), GetNodeType(inp.env), GetNodeRank(inp.env), inp.now)))
      && c.log.reported == (if metric.Some? && old(c.log.hasClient) && inp.reportOk then old(c.log.reported) + [metric.value] else old(c.log.reported))
      && c.log.hasClient == old(c.log.hasClient)
  {
    data, stored, metric := NoData, false, None;
    match c
    case Resource(r) =>
      data := r.CollectData();
    case Metric(m) =>
      if m.IsEnabled(inp.portOpen) {
        data := m.CollectData(inp.portOpen, inp.response);
        stored, metric := true, m.StoreData(data, inp.env);
      }
    case Log(l) =>
      if l.IsEnabled(inp.logFiles) {
        data := l.CollectData(inp.logFiles, inp.readOk);
        stored := true;
        metric := l.StoreData(data, inp.env, inp.now, inp.reportOk);
      }
    case Stack(s) =>
      if s.IsEnabled() {
        data := s.CollectData(inp.snapshot);
        stored, metric := true, s.StoreData(data, inp.env);
      }
  }

  /**
   * The default setup registers four collectors when a training log is configured and three
   * otherwise.
   */
  method DefaultCollectorCount(trainingLogFile: string, env: Env) returns (n: nat)
    ensures n == if trainingLogFile != "" then 4 else 3
  {
    var agent := new DiagnosisAgent(trainingLogFile);
    ghost var r, m, l, s := agent.Start(env);
    n := |agent.collectors.Keys|;
  }

  /**
   * Registering one collector twice keeps a single entry with the later interval, and an
   * interval below the minimum becomes the minimum.
   */
  method ReRegister() returns (entries: nat, interval: int)
    ensures entries == 1 && interval == Constants.MIN_DATA_COLLECT_INTERVAL
  {
    var agent := new DiagnosisAgent();
    var s := new SC.StackCollector();
    agent.RegisterPeriodicalDataCollector(Stack(s), 120);
    agent.RegisterPeriodicalDataCollector(Stack(s), 5);
    entries := |agent.collectors.Keys|;
    interval := agent.collectors[Stack(s)];
  }

  /**
   * A metric collector whose endpoint answers but whose request fails still stores: it
   * collects "" and the store step builds a metric with empty content.
   */
  method FailedFetchIsStored(env: Env, inp: Inputs) returns (stored: bool, metric: Option<WorkerTrainingMetric>)
    requires Constants.XPU_TIMER_PORT in env && env[Constants.XPU_TIMER_PORT] != ""
    requires PyInt.ParseInt(env[Constants.XPU_TIMER_PORT]).Some?
    requires inp.portOpen && inp.response.None?
    ensures stored && metric.Some? && metric.value.dataContent == ""
  {
    var m := new MC.MetricCollector(env);
    var data;
    data, stored, metric := CollectorTick(Metric(m), inp);
  }
}
