/**
 * `TrainingMonitor`: on rank 0, reads the training-metrics file the training script writes
 * (`{"step": ..., "timestamp": ...}`) and accepts a step report only when the step is
 * positive and more than 15 seconds have passed since the last accepted one. The file
 * system is the object `Disk` holding the decoded JSON of each file.
 */
module TrainingMonitor {
  import opened Wrappers
  import opened Json
  import opened Utils
  import Constants

  /** A file's content as `json.load` sees it: a decoded value, or text that does not parse. */
  datatype FileContent = Parsed(value: Json) | Malformed

  class Disk {
    var files: map<string, FileContent>

    constructor (files: map<string, FileContent>)
      ensures this.files == files
    {
      this.files := files;
    }
  }

  /** The minimum gap, in seconds, between two accepted reports. */
  const REPORT_GAP := 15

  /**
   * A JSON value used in an integer comparison: an integer, or a boolean as 0 or 1; None
   * where Python raises TypeError.
   */
  function AsInt(v: Json): Option<int> {
    match v
    case JInt(i) => Some(i)
    case JBool(b) => Some(if b then 1 else 0)
    case _ => None
  }

  /** `record.get(key, 0)`. */
  function FieldOr0(record: JsonObject, key: string): Json {
    if key in record then record[key] else JInt(0)
  }

  /** Whether a report of this file is accepted against the last accepted timestamp. */
  predicate Accepts(last: int, groupRank: int, file: Option<FileContent>) {
    && groupRank == 0
    && file.Some? && file.value.Parsed? && file.value.value.JObj?
    && var record := file.value.value.fields;
      && AsInt(FieldOr0(record, "step")).Some? && AsInt(FieldOr0(record, "step")).value > 0
      && AsInt(FieldOr0(record, "timestamp")).Some?
      && AsInt(FieldOr0(record, "timestamp")).value - last > REPORT_GAP
  }

  /**
   * `_last_timestamp` after one `report_step`: unchanged off rank 0, without a metrics file,
   * when reading or comparing raises (the error is swallowed), for a non-positive step, or
   * when at most 15 seconds have passed; otherwise the record's timestamp.
   */
  function NextTimestamp(last: int, groupRank: int, file: Option<FileContent>): (r: int)
    ensures r == last || r > last + REPORT_GAP
  {
    if groupRank != 0 then last
    else match file
      case None => last
      case Some(Malformed) => last
      case Some(Parsed(JObj(record))) =>
        var step := AsInt(FieldOr0(record, "step"));
        if step.None? || step.value <= 0 then last
        else
          var ts := AsInt(FieldOr0(record, "timestamp"));
          if ts.None? || ts.value - last <= REPORT_GAP then last else ts.value
      case Some(Parsed(_)) => last
  }

  /** A report changes the timestamp exactly when it is accepted, and then to the record's timestamp. */
  lemma NextTimestampAccepts(last: int, groupRank: int, file: Option<FileContent>)
    ensures NextTimestamp(last, groupRank, file) != last <==> Accepts(last, groupRank, file)
    ensures Accepts(last, groupRank, file) ==>
      NextTimestamp(last, groupRank, file) == AsInt(FieldOr0(file.value.value.fields, "timestamp")).value
  {
  }

  /**
   * A run of reports over successive file contents: the final timestamp and how many
   * reports were accepted. Every acceptance raises the timestamp by at least 16 seconds.
   */
  function ReportRun(last: int, groupRank: int, contents: seq<Option<FileContent>>): (r: (int, nat))
    ensures r.0 >= last + (REPORT_GAP + 1) * r.1
    ensures groupRank != 0 ==> r == (last, 0)
    decreases |contents|
  {
    if contents == [] then (last, 0)
    else
      var next := NextTimestamp(last, groupRank, contents[0]);
      var rest := ReportRun(next, groupRank, contents[1..]);
      (rest.0, rest.1 + (if next != last then 1 else 0))
  }

  /** `{"step": step, "timestamp": timestamp}`, the record `write_training_metrics` writes. */
  function MetricsRecord(step: int, timestamp: int): (d: JsonObject)
    ensures d.Keys == {"step", "timestamp"}
    ensures d["step"] == JInt(step) && d["timestamp"] == JInt(timestamp)
  {
    map["step" := JInt(step), "timestamp" := JInt(timestamp)]
  }

  /**
   * A record written by `write_training_metrics` is accepted on rank 0 exactly when its step
   * is positive and its timestamp is more than 15 seconds past the last accepted one.
   */
  lemma WrittenRecordAccepted(last: int, step: int, timestamp: int)
    ensures var file := Some(Parsed(JObj(MetricsRecord(step, timestamp))));
      NextTimestamp(last, 0, file) == if step > 0 && timestamp - last > REPORT_GAP then timestamp else last
  {
  }

  /** A record without "step" or "timestamp" counts them as 0 and is never accepted. */
  lemma MissingKeysIgnored(last: int, groupRank: int, record: JsonObject)
    requires "step" !in record || "timestamp" !in record
    requires last >= -REPORT_GAP
    ensures NextTimestamp(last, groupRank, Some(Parsed(JObj(record)))) == last
  {
  }

  /** The file at a path, None when it does not exist. */
  function Lookup(files: map<string, FileContent>, path: string): Option<FileContent> {
    if path in files then Some(files[path]) else None
  }

  class TrainingMonitor {
    var lastTimestamp: int
    /** `get_node_rank()` at construction. */
    const groupRank: int
    const metricsPath: string
    var stopped: bool

    /**
     * `__init__`: timestamp 0, group rank from the environment; a stale metrics file is
     * removed when the removal succeeds (`removeOk`).
     */
    constructor (env: Env, metricsPath: string, disk: Disk, removeOk: bool)
      modifies disk
      ensures lastTimestamp == 0 && groupRank == GetNodeRank(env) && this.metricsPath == metricsPath && !stopped
      ensures disk.files == if removeOk then old(disk.files) - {metricsPath} else old(disk.files)
    {
      lastTimestamp := 0;
      groupRank := GetNodeRank(env);
      this.metricsPath := metricsPath;
      stopped := false;
      if metricsPath in disk.files && removeOk {
        disk.files := disk.files - {metricsPath};
      }
    }

    /** `start`: clears the stop flag only when CHEN1110_MONITOR_ENABLED is "true" (the thread is not modelled). */
    method Start(env: Env)
      modifies this
      ensures stopped == if GetEnv(env, Constants.MONITOR_ENABLED, "false") == "true" then false else old(stopped)
      ensures lastTimestamp == old(lastTimestamp)
    {
      if GetEnv(env, Constants.MONITOR_ENABLED, "false") == "true" {
        stopped := false;
      }
    }

    /** `stop`. */
    method Stop()
      modifies this
      ensures stopped && lastTimestamp == old(lastTimestamp)
    {
      stopped := true;
    }

    /** `report_step`: one report against the metrics file as it is now. */
    method ReportStep(disk: Disk)
      modifies this
      ensures lastTimestamp == NextTimestamp(old(lastTimestamp), groupRank, Lookup(disk.files, metricsPath))
      ensures lastTimestamp == old(lastTimestamp) || lastTimestamp > old(lastTimestamp) + REPORT_GAP
      ensures stopped == old(stopped)
    {
      if groupRank != 0 {
        return;
      }
      if metricsPath !in disk.files {
        return;
      }
      match disk.files[metricsPath]
      case Malformed =>
      case Parsed(v) =>
        if v.JObj? {
          var step := AsInt(FieldOr0(v.fields, "step"));
          if step.Some? && step.value > 0 {
            var ts := AsInt(FieldOr0(v.fields, "timestamp"));
            if ts.Some? && ts.value - lastTimestamp > REPORT_GAP {
              lastTimestamp := ts.value;
            }
          }
        }
    }
  }

  /**
   * `write_training_metrics(path, step, timestamp=None)`: writes the record, with the
   * timestamp defaulting to `now`; nothing changes when writing fails.
   */
  method WriteTrainingMetrics(disk: Disk, path: string, step: int, timestamp: Option<int>, now: int, writeOk: bool)
    modifies disk
    ensures disk.files == if writeOk then old(disk.files)[path := Parsed(JObj(MetricsRecord(step, timestamp.GetOr(now))))]
                          else old(disk.files)
  {
    if writeOk {
      var ts := if timestamp.Some? then timestamp.value else now;
      disk.files := disk.files[path := Parsed(JObj(MetricsRecord(step, ts)))];
    }
  }

  /**
   * Writing step 10 at t = 100 and reporting on rank 0 accepts it; rewriting at t = 110 is
   * within 15 seconds and is not accepted; at t = 116 it is.
   */
  method ReportSchedule(env: Env) returns (first: int, second: int, third: int)
    requires Constants.NODE_RANK in env && env[Constants.NODE_RANK] == "0"
    ensures first == 100 && second == 100 && third == 116
  {
    var disk := new Disk(map[]);
    var m := new TrainingMonitor(env, "metrics.json", disk, true);
    assert PyInt.ParseInt("0") == Some(0) by {
      PyInt.IntRoundTrip(0);
      assert PyInt.IntToString(0) == "0";
    }
    assert m.groupRank == 0;
    WriteTrainingMetrics(disk, "metrics.json", 10, Some(100), 0, true);
    WrittenRecordAccepted(0, 10, 100);
    assert Lookup(disk.files, "metrics.json") == Some(Parsed(JObj(MetricsRecord(10, 100))));
    m.ReportStep(disk);
    first := m.lastTimestamp;
    WriteTrainingMetrics(disk, "metrics.json", 11, Some(110), 0, true);
    WrittenRecordAccepted(100, 11, 110);
    assert Lookup(disk.files, "metrics.json") == Some(Parsed(JObj(MetricsRecord(11, 110))));
    m.ReportStep(disk);
    second := m.lastTimestamp;
    WriteTrainingMetrics(disk, "metrics.json", 12, Some(116), 0, true);
    WrittenRecordAccepted(100, 12, 116);
    assert Lookup(disk.files, "metrics.json") == Some(Parsed(JObj(MetricsRecord(12, 116))));
    m.ReportStep(disk);
    third := m.lastTimestamp;
  }
}
