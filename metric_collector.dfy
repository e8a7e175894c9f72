/**
 * `MetricCollector`: fetches the xpu-timer Prometheus text from a local endpoint and strips
 * comment and `exposer` lines before handing it on. The environment, whether the port
 * answers and the HTTP response are parameters.
 */
module MetricCollector {
  import opened Wrappers
  import opened PyInt
  import opened PyText
  import opened Utils
  import opened DiagnosisData
  import opened DataCollector
  import Constants

  const ENDPOINT_HEAD := "http://127.0.0.1:"
  const ENDPOINT_TAIL := "/metrics"

  /** The endpoint for a port read from the environment: None when unset or empty. */
  function Endpoint(port: Option<string>): (r: Option<string>)
    ensures r.Some? <==> port.Some? && port.value != ""
    ensures r.Some? ==> r.value == ENDPOINT_HEAD + port.value + ENDPOINT_TAIL
  {
    if port.Some? && port.value != "" then Some(ENDPOINT_HEAD + port.value + ENDPOINT_TAIL) else None
  }

  /** A line `_preprocess_metrics` keeps: neither a `#` comment nor an `exposer` line. */
  predicate Kept(line: string) {
    !StartsWith(line, "#") && !StartsWith(line, "exposer")
  }

  /** The list comprehension of `_preprocess_metrics`: the kept lines, in their order. */
  function KeptLines(lines: seq<string>): (r: seq<string>)
    ensures |r| <= |lines|
    ensures forall line :: line in r <==> line in lines && Kept(line)
  {
    if lines == [] then []
    else if Kept(lines[0]) then [lines[0]] + KeptLines(lines[1..])
    else KeptLines(lines[1..])
  }

  /** `_preprocess_metrics`: the kept lines of the text, joined by newlines. */
  function PreprocessMetrics(text: string): string {
    Join("\n", KeptLines(SplitLines(text)))
  }

  /** Keeping lines commutes with concatenation, so the kept lines stay in input order. */
  lemma {:induction false} KeptLinesOfConcat(a: seq<string>, b: seq<string>)
    ensures KeptLines(a + b) == KeptLines(a) + KeptLines(b)
    decreases |a|
  {
    if a != [] {
      assert (a + b)[1..] == a[1..] + b;
      KeptLinesOfConcat(a[1..], b);
    } else {
      assert a + b == b;
    }
  }

  /** A sequence of lines that are all kept passes through unchanged. */
  lemma {:induction false} KeptLinesOfKept(lines: seq<string>)
    requires forall line <- lines :: Kept(line)
    ensures KeptLines(lines) == lines
    decreases |lines|
  {
    if lines != [] {
      KeptLinesOfKept(lines[1..]);
    }
  }

  /**
   * Every line of the preprocessed text is a line of the input that is neither a comment
   * nor an `exposer` line, and there are no more of them than input lines.
   */
  lemma PreprocessedLinesAreKept(text: string)
    ensures forall line <- SplitLines(PreprocessMetrics(text)) :: Kept(line) && line in SplitLines(text)
    ensures |SplitLines(PreprocessMetrics(text))| <= |SplitLines(text)|
  {
    var kept := KeptLines(SplitLines(text));
    SplitLinesHaveNoNewline(text);
    SplitLinesOfJoinBound(kept);
  }

  /**
   * Preprocessing its own output changes nothing, provided the last kept line is not
   * empty: joining then splitting lines loses a final empty line.
   */
  lemma PreprocessIdempotent(text: string)
    requires var kept := KeptLines(SplitLines(text)); kept == [] || kept[|kept| - 1] != ""
    ensures PreprocessMetrics(PreprocessMetrics(text)) == PreprocessMetrics(text)
  {
    var kept := KeptLines(SplitLines(text));
    SplitLinesHaveNoNewline(text);
    SplitLinesOfJoin(kept);
    KeptLinesOfKept(kept);
  }

  /** A non-empty line followed by two newlines has that line and an empty one; by one newline, just the line. */
  lemma LinesOfSample(x: string)
    requires '\n' !in x && x != ""
    ensures SplitLines(x + "\n\n") == [x, ""]
    ensures SplitLines(x + "\n") == [x]
  {
    var two: seq<string> := [x, "", ""];
    assert two[1..] == ["", ""] && two[1..][1..] == [""];
    assert Join("\n", ["", ""]) == "\n";
    assert Join("\n", two) == x + "\n" + "\n";
    assert "\n" + "\n" == "\n\n";
    assert x + "\n" + "\n" == x + "\n\n";
    SplitLinesOfJoin(two);
    var one: seq<string> := [x, ""];
    assert one[1..] == [""];
    assert Join("\n", one) == x + "\n";
    SplitLinesOfJoin(one);
  }

  /** A kept line followed by two newlines keeps both its lines and preprocesses to the line and one newline. */
  lemma PreprocessFirstPass(x: string)
    requires Kept(x) && '\n' !in x && x != ""
    ensures PreprocessMetrics(x + "\n\n") == x + "\n"
  {
    var lines: seq<string> := [x, ""];
    LinesOfSample(x);
    assert Kept(lines[0]) && Kept(lines[1]);
    KeptLinesOfKept(lines);
    assert lines[1..] == [""];
    assert Join("\n", lines) == x + "\n";
  }

  /** A kept line followed by one newline preprocesses to the bare line. */
  lemma PreprocessSecondPass(x: string)
    requires Kept(x) && '\n' !in x && x != ""
    ensures PreprocessMetrics(x + "\n") == x
  {
    LinesOfSample(x);
    KeptLinesOfKept([x]);
  }

  /**
   * Without that proviso preprocessing is not idempotent: a kept line followed by two
   * newlines loses one newline per pass, so "a\n\n" becomes "a\n", then "a".
   */
  lemma PreprocessNotIdempotent(x: string)
    requires Kept(x) && '\n' !in x && x != ""
    ensures PreprocessMetrics(x + "\n\n") == x + "\n"
    ensures PreprocessMetrics(PreprocessMetrics(x + "\n\n")) == x
    ensures PreprocessMetrics(PreprocessMetrics(x + "\n\n")) != PreprocessMetrics(x + "\n\n")
  {
    PreprocessFirstPass(x);
    PreprocessSecondPass(x);
    assert |x + "\n"| == |x| + 1;
  }

  class MetricCollector {
    /** `get_env(XPU_TIMER_PORT)`: None when the variable is unset. */
    const metricPort: Option<string>
    const metricEndpoint: Option<string>

    /** `__init__`: reads the port from the environment and builds the endpoint from it. */
    constructor (env: Env)
      ensures metricPort == LookupEnv(env, Constants.XPU_TIMER_PORT)
      ensures metricEndpoint == Endpoint(metricPort)
    {
      metricPort := LookupEnv(env, Constants.XPU_TIMER_PORT);
      metricEndpoint := Endpoint(LookupEnv(env, Constants.XPU_TIMER_PORT));
    }

    /**
     * `is_enabled`: there is an endpoint and `is_port_in_use(port)` holds, which needs the
     * port to read as an integer and something to accept the connection (`portOpen`).
     */
    predicate IsEnabled(portOpen: bool)
      reads this
    {
      metricPort.Some? && metricEndpoint.Some? && ParseInt(metricPort.value).Some? && portOpen
    }

    /**
     * `collect_data`: "" when disabled or when the request fails (`response` is None),
     * otherwise the preprocessed response text.
     */
    function CollectData(portOpen: bool, response: Option<string>): (r: Collected)
      reads this
      ensures r.Text?
      ensures !IsEnabled(portOpen) ==> r.text == ""
      ensures IsEnabled(portOpen) && response.None? ==> r.text == ""
      ensures IsEnabled(portOpen) && response.Some? ==> r.text == PreprocessMetrics(response.value)
    {
      if !IsEnabled(portOpen) then Text("")
      else match response
        case None => Text("")
        case Some(body) => Text(PreprocessMetrics(body))
    }

    /**
     * `store_data`: nothing for a non-string; otherwise the XPU_TIMER_METRIC metric it
     * builds from the text and the node identity in the environment (it is only logged).
     */
    function StoreData(data: Collected, env: Env): (r: Option<WorkerTrainingMetric>)
      ensures r.Some? <==> data.IsStr()
      ensures r.Some? ==> r.value.dataType == Constants.XpuTimerMetric && r.value.dataContent == data.text
      ensures r.Some? ==> r.value.nodeId == GetNodeId(env) && r.value.nodeRank == GetNodeRank(env)
      ensures r.Some? ==> r.value.nodeType == GetNodeType(env) && r.value.timestamp == 0
    {
      if !data.IsStr() then None
      else Some(WorkerTrainingMetric(Constants.XpuTimerMetric, data.text, GetNodeId(env), GetNodeType(env), GetNodeRank(env), 0))
    }
  }

  /** Without a port in the environment there is no endpoint and the collector is never enabled. */
  lemma NoPortDisabled(m: MetricCollector, env: Env, portOpen: bool)
    requires m.metricPort == LookupEnv(env, Constants.XPU_TIMER_PORT) && m.metricEndpoint == Endpoint(m.metricPort)
    requires Constants.XPU_TIMER_PORT !in env || env[Constants.XPU_TIMER_PORT] == ""
    ensures !m.IsEnabled(portOpen)
  {
  }
}
