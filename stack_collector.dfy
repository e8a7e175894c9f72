/**
 * `StackCollector`: snapshots the stack of every thread and renders the snapshot as text
 * for a STACK_TRACE metric. The snapshot (`sys._current_frames` with thread names and
 * formatted frames) is a parameter.
 */
module StackCollector {
  import opened Wrappers
  import opened PyInt
  import opened PyText
  import opened Utils
  import opened DiagnosisData
  import opened DataCollector
  import Constants

  /** `f"Thread {thread_id} ({name}):"`. */
  function Header(threadId: int, name: string): string {
    "Thread " + IntToString(threadId) + " (" + name + "):"
  }

  /** Each frame indented by two spaces. */
  function Indented(frames: seq<string>): (r: seq<string>)
    ensures |r| == |frames|
    ensures forall i :: 0 <= i < |frames| ==> r[i] == "  " + frames[i]
  {
    seq(|frames|, i requires 0 <= i < |frames| => "  " + frames[i])
  }

  /** The lines one thread contributes: its header, its indented frames, then an empty line. */
  function ThreadLines(entry: ThreadEntry): seq<string> {
    [Header(entry.0, entry.1.name)] + Indented(entry.1.frames) + [""]
  }

  /** The `lines` list `_format_stacks` builds, threads in dict order. */
  function StackLines(stacks: seq<ThreadEntry>): seq<string> {
    if stacks == [] then [] else ThreadLines(stacks[0]) + StackLines(stacks[1..])
  }

  /** The number of lines for a snapshot: two per thread plus one per frame. */
  function LineCount(stacks: seq<ThreadEntry>): nat {
    if stacks == [] then 0 else |stacks[0].1.frames| + 2 + LineCount(stacks[1..])
  }

  /** `_format_stacks`: the lines joined by newlines. */
  function FormatStacks(stacks: seq<ThreadEntry>): string {
    Join("\n", StackLines(stacks))
  }

  /** The line list has exactly two lines per thread plus one per frame. */
  lemma {:induction false} StackLinesCount(stacks: seq<ThreadEntry>)
    ensures |StackLines(stacks)| == LineCount(stacks)
    decreases |stacks|
  {
    if stacks != [] {
      StackLinesCount(stacks[1..]);
    }
  }

  /** The lines of two consecutive runs of threads are the lines of the first run, then the second. */
  lemma {:induction false} StackLinesOfConcat(a: seq<ThreadEntry>, b: seq<ThreadEntry>)
    ensures StackLines(a + b) == StackLines(a) + StackLines(b)
    decreases |a|
  {
    if a == [] {
      assert a + b == b;
    } else {
      assert (a + b)[1..] == a[1..] + b;
      StackLinesOfConcat(a[1..], b);
    }
  }

  /**
   * `lines` holds the block of `entry` from `start` on: its header, then its frames indented
   * in list order, then the empty line.
   */
  predicate BlockAt(lines: seq<string>, start: nat, entry: ThreadEntry) {
    var frames := entry.1.frames;
    && start + |frames| + 2 <= |lines|
    && lines[start] == Header(entry.0, entry.1.name)
    && (forall i :: 0 <= i < |frames| ==> lines[start + 1 + i] == "  " + frames[i])
    && lines[start + |frames| + 1] == ""
  }

  /** A thread's block placed after `pre` starts at `|pre|`. */
  lemma BlockAfter(pre: seq<string>, entry: ThreadEntry, post: seq<string>)
    ensures BlockAt(pre + ThreadLines(entry) + post, |pre|, entry)
  {
    var block := ThreadLines(entry);
    var frames := entry.1.frames;
    assert |block| == |frames| + 2;
    assert forall i :: 0 <= i < |frames| ==> block[1 + i] == Indented(frames)[i];
    assert block[|frames| + 1] == "";
    var lines := pre + block + post;
    assert forall i :: 0 <= i < |block| ==> lines[|pre| + i] == block[i];
  }

  /** Thread k's block starts after the lines of the threads before it. */
  lemma ThreadBlockAt(stacks: seq<ThreadEntry>, k: nat)
    requires k < |stacks|
    ensures BlockAt(StackLines(stacks), LineCount(stacks[..k]), stacks[k])
  {
    var before, rest := stacks[..k], stacks[k..];
    assert stacks == before + rest;
    StackLinesOfConcat(before, rest);
    StackLinesCount(before);
    var pre, post := StackLines(before), StackLines(rest[1..]);
    assert StackLines(rest) == ThreadLines(stacks[k]) + post;
    assert StackLines(stacks) == pre + ThreadLines(stacks[k]) + post;
    BlockAfter(pre, stacks[k], post);
  }

  /** An empty snapshot formats as the empty text. */
  lemma FormatEmpty()
    ensures FormatStacks([]) == ""
  {
  }

  /** A non-empty snapshot's text ends with a newline: the last thread's block ends in an empty line. */
  lemma FormatEndsWithNewline(stacks: seq<ThreadEntry>)
    requires stacks != []
    ensures EndsWith(FormatStacks(stacks), "\n")
  {
    var lines := StackLines(stacks);
    var last := |stacks| - 1;
    assert stacks == stacks[..last] + [stacks[last]];
    StackLinesOfConcat(stacks[..last], [stacks[last]]);
    assert StackLines([stacks[last]]) == ThreadLines(stacks[last]);
    var init := lines[..|lines| - 1];
    assert lines == init + [""];
    assert |init| >= 1;
    JoinAppend("\n", init, "");
    var text := Join("\n", init) + "\n" + "";
    assert text[|text| - 1..] == "\n";
  }

  class StackCollector {
    /** `_enabled`, set on construction. */
    var enabled: bool

    /** `__init__`: enabled. */
    constructor ()
      ensures enabled
    {
      enabled := true;
    }

    /** `is_enabled`. */
    predicate IsEnabled()
      reads this
    {
      enabled
    }

    /**
     * `collect_data`: `{}` when disabled or when taking the snapshot raises (`snapshot` is
     * None), otherwise the snapshot.
     */
    function CollectData(snapshot: Option<seq<ThreadEntry>>): (r: Collected)
      reads this
      ensures r.Stacks?
      ensures !enabled || snapshot.None? ==> r.threads == []
      ensures enabled && snapshot.Some? ==> r.threads == snapshot.value
    {
      if !enabled then Stacks([])
      else match snapshot
        case None => Stacks([])
        case Some(threads) => Stacks(threads)
    }

    /**
     * `store_data`: nothing for a non-dict; otherwise the STACK_TRACE metric whose content is
     * the formatted snapshot (it is only logged).
     */
    function StoreData(data: Collected, env: Env): (r: Option<WorkerTrainingMetric>)
      ensures r.Some? <==> data.IsDict()
      ensures r.Some? ==> r.value.dataType == Constants.StackTrace && r.value.dataContent == FormatStacks(data.threads)
      ensures r.Some? ==> r.value.nodeId == GetNodeId(env) && r.value.nodeRank == GetNodeRank(env)
      ensures r.Some? ==> r.value.nodeType == GetNodeType(env) && r.value.timestamp == 0
    {
      if !data.IsDict() then None
      else Some(WorkerTrainingMetric(Constants.StackTrace, FormatStacks(data.threads), GetNodeId(env), GetNodeType(env), GetNodeRank(env), 0))
    }
  }
}
