/**
 * `LogCollector`: tails the training log. Each collect reads what was appended since the
 * previous one (a cursor into the file), keeps only the last `max_lines` lines of it, and
 * the store step reports the text to the master as a TRAINING_LOG metric. The file system
 * is a map from path to file text; positions are character offsets.
 */
module LogCollector {
  import opened Wrappers
  import opened PyText
  import opened Utils
  import opened DiagnosisData
  import opened DataCollector
  import Constants

  /** A directory snapshot: path -> file text. */
  type Files = map<string, string>

  /**
   * The text a collect returns for the newly read content: the content itself when it has at
   * most `max_lines` lines, otherwise the last `max_lines` lines joined by newlines.
   */
  function TailText(content: string, maxLines: int): (r: string) {
    var lines := SplitLines(content);
    if |lines| > maxLines then Join("\n", SliceFrom(lines, -maxLines)) else content
  }

  /**
   * With a positive `max_lines` the returned text never has more than `max_lines` lines, and
   * those lines are the last lines of the new content.
   */
  lemma TailTextBound(content: string, maxLines: int)
    requires maxLines >= 1
    ensures |SplitLines(TailText(content, maxLines))| <= maxLines
    ensures var lines := SplitLines(content);
      |lines| > maxLines ==> TailText(content, maxLines) == Join("\n", lines[|lines| - maxLines..])
  {
    var lines := SplitLines(content);
    if |lines| > maxLines {
      var tail := lines[|lines| - maxLines..];
      assert Clamp(-maxLines, |lines|) == |lines| - maxLines;
      assert TailText(content, maxLines) == Join("\n", tail);
      SplitLinesHaveNoNewline(content);
      forall line <- tail ensures '\n' !in line {
        assert line in lines;
      }
      SplitLinesOfJoinBound(tail);
    }
  }

  /** `max_lines = 0` truncates nothing: `lines[-0:]` is every line. */
  lemma TailTextZero(content: string)
    ensures var lines := SplitLines(content); lines != [] ==> TailText(content, 0) == Join("\n", lines)
  {
    var lines := SplitLines(content);
    assert SliceFrom(lines, 0) == lines;
  }

  class LogCollector {
    const logFilePath: Option<string>
    const maxLines: int
    /** Where the next read starts (`_last_position`). */
    var lastPosition: nat
    /** Whether `set_client` has given a master client. */
    var hasClient: bool
    /** The metrics the master client has received, oldest first. */
    var reported: seq<WorkerTrainingMetric>

    /** `__init__(log_file_path=None, max_lines=1000)`: cursor at the start, no client. */
    constructor (logFilePath: Option<string>, maxLines: int := 1000)
      ensures this.logFilePath == logFilePath && this.maxLines == maxLines
      ensures lastPosition == 0 && !hasClient && reported == []
    {
      this.logFilePath := logFilePath;
      this.maxLines := maxLines;
      lastPosition := 0;
      hasClient := false;
      reported := [];
    }

    /** `is_enabled`: a path is set and the file exists. */
    predicate IsEnabled(files: Files)
      reads this
    {
      logFilePath.Some? && logFilePath.value in files
    }

    /** `f.seek(pos); f.read()`: the text from the cursor to the end, empty when the cursor is past it. */
    function NewContent(text: string): (r: string)
      reads this
      ensures |r| <= |text|
      ensures lastPosition <= |text| ==> text == text[..lastPosition] + r
      ensures lastPosition >= |text| ==> r == ""
    {
      if lastPosition <= |text| then text[lastPosition..] else ""
    }

    /** `f.tell()` after the read: the end of the file, or the cursor when it is already past the end. */
    function EndPosition(text: string): (r: nat)
      reads this
      ensures r >= lastPosition && r >= |text|
      ensures lastPosition <= |text| ==> r == |text|
    {
      if lastPosition <= |text| then |text| else lastPosition
    }

    /**
     * `set_client(client)`: `present` is whether the client passed is truthy, so
     * `set_client(None)` leaves the collector without a client.
     */
    method SetClient(present: bool)
      modifies this
      ensures hasClient == present && lastPosition == old(lastPosition) && reported == old(reported)
    {
      hasClient := present;
    }

    /**
     * `collect_data`: "" when disabled or when reading fails (`readOk` false), leaving the
     * cursor; otherwise the tail of the text appended since the last collect, after which
     * the cursor is at the end of the file.
     */
    method CollectData(files: Files, readOk: bool) returns (data: Collected)
      modifies this
      ensures data.Text?
      ensures !IsEnabled(files) || !readOk ==> data.text == "" && lastPosition == old(lastPosition)
      ensures IsEnabled(files) && readOk ==>
        var text := files[logFilePath.value];
        && data.text == TailText(old(NewContent(text)), maxLines)
        && lastPosition == old(EndPosition(text))
      ensures hasClient == old(hasClient) && reported == old(reported)
    {
      if !IsEnabled(files) || !readOk {
        return Text("");
      }
      var text := files[logFilePath.value];
      var content := NewContent(text);
      lastPosition := EndPosition(text);
      var lines := SplitLines(content);
      if |lines| > maxLines {
        lines := SliceFrom(lines, -maxLines);
        content := Join("\n", lines);
      }
      data := Text(content);
    }

    /**
     * `store_data`: nothing for a non-string or an empty string; otherwise it builds the
     * TRAINING_LOG metric stamped `now`, which the master receives when a client is set
     * and the report does not fail (`reportOk`).
     */
    method StoreData(data: Collected, env: Env, now: int, reportOk: bool) returns (metric: Option<WorkerTrainingMetric>)
      modifies this
      ensures metric.Some? <==> data.IsStr() && data.text != ""
      ensures metric.Some? ==>
        metric.value == WorkerTrainingMetric(Constants.TrainingLog, data.text, GetNodeId(env), GetNodeType(env), GetNodeRank(env), now)
      ensures reported == if metric.Some? && hasClient && reportOk then old(reported) + [metric.value] else old(reported)
      ensures lastPosition == old(lastPosition) && hasClient == old(hasClient)
    {
      if !data.IsStr() || data.text == "" {
        return None;
      }
      var m := WorkerTrainingMetric(Constants.TrainingLog, data.text, GetNodeId(env), GetNodeType(env), GetNodeRank(env), now);
      if hasClient && reportOk {
        reported := reported + [m];
      }
      metric := Some(m);
    }
  }

  /**
   * Two collects with no growth of the file in between: the second returns "" and leaves the
   * cursor where the first put it.
   */
  method CollectTwice(c: LogCollector, files: Files) returns (first: Collected, second: Collected)
    requires c.IsEnabled(files)
    modifies c
    ensures var text := files[c.logFilePath.value];
      c.lastPosition == if old(c.lastPosition) <= |text| then |text| else old(c.lastPosition)
    ensures second == Text("")
  {
    first := c.CollectData(files, true);
    second := c.CollectData(files, true);
  }

  /** When the new content has at most `max_lines` lines, a collect returns it verbatim. */
  lemma ShortContentVerbatim(content: string, maxLines: int)
    requires |SplitLines(content)| <= maxLines
    ensures TailText(content, maxLines) == content
  {
  }

  /** Appending to the file after a collect makes the next collect read exactly the appended text. */
  lemma AppendedIsRead(c: LogCollector, text: string, more: string)
    requires c.lastPosition == |text|
    ensures c.NewContent(text + more) == more
  {
  }
}
