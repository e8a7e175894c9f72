/**
 * `LatestCheckpointManager`: saves `checkpoint_step_{step}.pt` into its directory,
 * remembers the last path it saved, and after each save deletes the oldest checkpoints
 * beyond `max_checkpoints`. The directory is a map from file name to the saved payload;
 * whether `torch.save` / `torch.load` succeed is a parameter.
 */
module LatestCheckpoint {
  import opened Wrappers
  import opened PyInt
  import opened PyText
  import opened Listing

  const PREFIX := "checkpoint_step_"
  const SUFFIX := ".pt"

  /** `f"checkpoint_step_{step}.pt"`. */
  function CheckpointName(step: int): string {
    PREFIX + IntToString(step) + SUFFIX
  }

  /** The listing filter: `startswith("checkpoint_step_") and endswith(".pt")`. */
  predicate IsCheckpointName(name: string) {
    StartsWith(name, PREFIX) && EndsWith(name, SUFFIX)
  }

  /** The sort key `int(x.split("_step_")[-1].split(".pt")[0])`, None where `int` raises. */
  function StepKey(name: string): Option<Key> {
    var pieces := Split(name, "_step_");
    var head := Split(pieces[|pieces| - 1], SUFFIX)[0];
    match ParseInt(head)
    case Some(v) => Some(Key(v, 0))
    case None => None
  }

  /** Every checkpoint file in the directory has a step the sort key can read. */
  predicate AllParse(names: set<string>) {
    forall n <- Matching(names, IsCheckpointName) :: StepKey(n).Some?
  }

  /** The name of a saved checkpoint passes the filter and sorts by its step. */
  lemma StepKeyRoundTrip(step: int)
    ensures IsCheckpointName(CheckpointName(step))
    ensures StepKey(CheckpointName(step)) == Some(Key(step, 0))
  {
    var digits := IntToString(step);
    var name := CheckpointName(step);
    assert name[..|PREFIX|] == PREFIX && name[|name| - |SUFFIX|..] == SUFFIX;
    NumberLacks(step, '_');
    NumberLacks(step, '.');
    assert name == "checkpoint" + "_step_" + (digits + SUFFIX);
    SplitPair("checkpoint", "_step_", digits + SUFFIX);
    assert digits + SUFFIX == digits + SUFFIX + "";
    SplitPair(digits, SUFFIX, "");
    IntRoundTrip(step);
  }

  /** The sort key reads the step back from the name of a saved checkpoint. */
  lemma StepParses(step: int)
    ensures StepKey(CheckpointName(step)).Some?
  {
    StepKeyRoundTrip(step);
  }

  /** Checkpoints of different steps have different names. */
  lemma NamesDistinct(a: int, b: int)
    requires a != b
    ensures CheckpointName(a) != CheckpointName(b)
  {
    StepKeyRoundTrip(a);
    StepKeyRoundTrip(b);
  }

  /**
   * A save whose step is above every other checkpoint's step survives its own cleanup
   * when `max_checkpoints >= 1`.
   */
  lemma NewestSurvives(l: seq<string>, names: set<string>, max: int, step: int)
    requires max >= 1 && IsListing(l, names, IsCheckpointName, StepKey)
    requires CheckpointName(step) in names
    requires forall n <- Matching(names, IsCheckpointName) ::
      n != CheckpointName(step) ==> !KeyLe(Key(step, 0), StepKey(n).value)
    ensures CheckpointName(step) !in Removed(l, max)
  {
    var name := CheckpointName(step);
    StepKeyRoundTrip(step);
    RemovedIsHead(l, max);
    var k := |l| - Min(max, |l|);
    forall i | 0 <= i < k ensures l[..k][i] != name {
      var last := l[|l| - 1];
      assert last in (set m | m in l);
      assert KeyLe(StepKey(l[i]).value, StepKey(last).value);
      assert l[i] != last;
    }
  }

  class LatestCheckpointManager<T> {
    /** File name -> saved state dict. */
    var files: map<string, T>
    const maxCheckpoints: int
    /** The path of the last successful save, None before any. */
    var latestPath: Option<string>

    /** The directory may already hold files (`os.makedirs(..., exist_ok=True)`). */
    constructor (existing: map<string, T>, maxCheckpoints: int := 3)
      ensures files == existing && this.maxCheckpoints == maxCheckpoints && latestPath == None
    {
      files := existing;
      this.maxCheckpoints := maxCheckpoints;
      latestPath := None;
    }

    /** `_list_checkpoints`: the checkpoint files sorted by step, Failure when a step is unreadable. */
    method ListCheckpoints() returns (r: Result<seq<string>, ListingError>)
      ensures r.Success? <==> AllParse(files.Keys)
      ensures r.Success? ==> IsListing(r.value, files.Keys, IsCheckpointName, StepKey)
    {
      r := SortedListing(files.Keys, IsCheckpointName, StepKey);
    }

    /**
     * `_cleanup_old_checkpoints`: deletes `listing[:-max]` when the listing is longer than
     * max. When the listing raises, nothing is deleted and the error is returned.
     */
    method CleanupOldCheckpoints() returns (raised: Option<ListingError>, ghost listing: seq<string>)
      modifies this
      ensures latestPath == old(latestPath)
      ensures raised.Some? <==> !AllParse(old(files).Keys)
      ensures raised.Some? ==> files == old(files)
      ensures raised.None? ==> IsListing(listing, old(files).Keys, IsCheckpointName, StepKey)
      ensures raised.None? ==> files == old(files) - Removed(listing, maxCheckpoints)
    {
      var r := ListCheckpoints();
      if r.Failure? {
        return Some(r.error), [];
      }
      var l := r.value;
      raised, listing := None, l;
      if |l| > maxCheckpoints {
        files := DeleteEach(files, SliceTo(l, -maxCheckpoints));
      }
    }

    /**
     * `save`: when `torch.save` fails, returns "" and changes nothing. Otherwise the file is
     * written and remembered as latest, then cleanup runs; the path is returned unless the
     * cleanup's listing raised, in which case "" is returned although the file was written.
     */
    method Save(state: T, step: int, saveOk: bool) returns (path: string, ghost listing: seq<string>)
      modifies this
      ensures !saveOk ==> path == "" && files == old(files) && latestPath == old(latestPath)
      ensures saveOk ==> latestPath == Some(CheckpointName(step))
      ensures saveOk ==> var written := old(files)[CheckpointName(step) := state];
        && (path == "" <==> !AllParse(written.Keys))
        && (path == "" ==> files == written)
        && (path != "" ==> path == CheckpointName(step))
        && (path != "" ==> IsListing(listing, written.Keys, IsCheckpointName, StepKey))
        && (path != "" ==> files == written - Removed(listing, maxCheckpoints))
    {
      var name := CheckpointName(step);
      if !saveOk {
        return "", [];
      }
      files := files[name := state];
      latestPath := Some(name);
      var raised;
      raised, listing := CleanupOldCheckpoints();
      path := if raised.Some? then "" else name;
    }

    /**
     * `load`: the given path, or the remembered one when None is given; None when there is
     * none, when the file does not exist, or when `torch.load` fails.
     */
    function Load(path: Option<string>, loadOk: bool): (r: Option<T>)
      reads this
      ensures var target := if path.Some? then path else latestPath;
        && (r.Some? <==> loadOk && target.Some? && target.value in files)
        && (r.Some? ==> r.value == files[target.value])
    {
      var target := if path.Some? then path else latestPath;
      if target.None? || target.value !in files || !loadOk then None
      else Some(files[target.value])
    }

    /**
     * `get_latest_checkpoint_path`: the remembered path while its file exists; otherwise the
     * checkpoint with the largest step, None when there is none, and the listing's error when
     * a step is unreadable.
     */
    method GetLatestCheckpointPath() returns (r: Result<Option<string>, ListingError>)
      ensures latestPath.Some? && latestPath.value in files ==> r == Success(latestPath)
      ensures !(latestPath.Some? && latestPath.value in files) ==>
        && (r.Success? <==> AllParse(files.Keys))
        && (r.Success? ==> (r.value.None? <==> Matching(files.Keys, IsCheckpointName) == {}))
        && (r.Success? && r.value.Some? ==> r.value.value in Matching(files.Keys, IsCheckpointName))
        && (r.Success? && r.value.Some? ==> forall n <- Matching(files.Keys, IsCheckpointName) ::
              KeyLe(StepKey(n).value, StepKey(r.value.value).value))
    {
      if latestPath.Some? && latestPath.value in files {
        return Success(latestPath);
      }
      var listing := ListCheckpoints();
      match listing
      case Failure(e) =>
        r := Failure(e);
      case Success(l) =>
        if |l| > 0 {
          var last := l[|l| - 1];
          assert last in (set m | m in l);
          forall n <- Matching(files.Keys, IsCheckpointName)
            ensures KeyLe(StepKey(n).value, StepKey(last).value)
          {
            LastIsLargest(l, files.Keys, IsCheckpointName, StepKey, n);
          }
          r := Success(Some(last));
        } else {
          assert forall n <- Matching(files.Keys, IsCheckpointName) :: n in (set m | m in l);
          r := Success(None);
        }
    }
  }

  /** A directory in which every name has a step passes the listing. */
  lemma ParsedNamesParse(names: set<string>)
    requires forall n <- names :: StepKey(n).Some?
    ensures AllParse(names)
  {
    forall n <- Matching(names, IsCheckpointName) ensures StepKey(n).Some? {
      assert n in names;
    }
  }

  /** The names of three increasing steps: distinct, all parsing, the first below the others. */
  lemma ThreeSteps(a: int, b: int, c: int)
    requires a < b < c
    ensures var ca, cb, cc := CheckpointName(a), CheckpointName(b), CheckpointName(c);
      && ca != cb && ca != cc && cb != cc
      && IsCheckpointName(ca) && IsCheckpointName(cb) && IsCheckpointName(cc)
      && StepKey(ca).Some? && StepKey(cb).Some? && StepKey(cc).Some?
      && !KeyLe(StepKey(cb).value, StepKey(ca).value)
      && !KeyLe(StepKey(cc).value, StepKey(ca).value)
  {
    StepKeyRoundTrip(a);
    StepKeyRoundTrip(b);
    StepKeyRoundTrip(c);
    NamesDistinct(a, b);
    NamesDistinct(a, c);
    NamesDistinct(b, c);
  }

  /** Checkpoints of three steps all have a readable step, so listing them does not raise. */
  lemma ThreeStepsParse(a: int, b: int, c: int)
    requires a < b < c
    ensures AllParse({CheckpointName(a), CheckpointName(b), CheckpointName(c)})
  {
    var names := {CheckpointName(a), CheckpointName(b), CheckpointName(c)};
    forall n <- names ensures StepKey(n).Some? {
      var step :| step in {a, b, c} && n == CheckpointName(step);
      StepParses(step);
    }
    ParsedNamesParse(names);
  }

  /** Cleanup after the third of three increasing steps, keeping two, deletes the first. */
  lemma ThirdStepDropsFirst(l: seq<string>, a: int, b: int, c: int)
    requires a < b < c
    requires IsListing(l, {CheckpointName(a), CheckpointName(b), CheckpointName(c)}, IsCheckpointName, StepKey)
    ensures Removed(l, 2) == {CheckpointName(a)}
  {
    ThreeSteps(a, b, c);
    ThreeKeepTwo(l, IsCheckpointName, StepKey, CheckpointName(a), CheckpointName(b), CheckpointName(c));
  }

  /** A successful save into a directory below the limit deletes nothing, whether or not the listing raises. */
  method SaveBelowLimit<T>(m: LatestCheckpointManager<T>, state: T, step: int)
    requires |m.files.Keys| < m.maxCheckpoints
    modifies m
    ensures m.files == old(m.files)[CheckpointName(step) := state]
    ensures m.latestPath == Some(CheckpointName(step))
  {
    ghost var written := m.files[CheckpointName(step) := state];
    assert written.Keys == m.files.Keys + {CheckpointName(step)};
    var path;
    ghost var l;
    path, l := m.Save(state, step, true);
    if path != "" {
      ShortListingKept(l, written.Keys, IsCheckpointName, StepKey, m.maxCheckpoints);
    }
  }

  /** Saving a third, larger step with `max_checkpoints = 2` deletes the checkpoint of the smallest step. */
  method SaveThirdStep<T>(m: LatestCheckpointManager<T>, a: int, b: int, c: int, state: T)
    requires a < b < c && m.maxCheckpoints == 2
    requires m.files.Keys == {CheckpointName(a), CheckpointName(b)}
    modifies m
    ensures m.files == old(m.files)[CheckpointName(c) := state] - {CheckpointName(a)}
    ensures m.latestPath == Some(CheckpointName(c))
  {
    ghost var written := m.files[CheckpointName(c) := state];
    assert written.Keys == {CheckpointName(a), CheckpointName(b), CheckpointName(c)};
    ThreeStepsParse(a, b, c);
    var path;
    ghost var l;
    path, l := m.Save(state, c, true);
    ThirdStepDropsFirst(l, a, b, c);
  }

  /** Adding a third file and deleting the first leaves the second and third. */
  lemma DropFirstOfThree<T>(ca: string, cb: string, cc: string, sa: T, sb: T, sc: T)
    requires ca != cb && ca != cc && cb != cc
    ensures map[ca := sa, cb := sb][cc := sc] - {ca} == map[cb := sb, cc := sc]
  {
  }

  /**
   * Saves at three increasing steps (100, 200 and 300 in the package's test) into an empty
   * directory with `max_checkpoints = 2`: the third save deletes the first checkpoint, and
   * loading the latest gives the state saved last.
   */
  method SaveThreeKeepTwo<T>(a: int, b: int, c: int, sa: T, sb: T, sc: T)
    returns (m: LatestCheckpointManager<T>)
    requires a < b < c
    ensures m.files == map[CheckpointName(b) := sb, CheckpointName(c) := sc]
    ensures m.Load(None, true) == Some(sc)
  {
    var ca, cb, cc := CheckpointName(a), CheckpointName(b), CheckpointName(c);
    NamesDistinct(a, b);
    NamesDistinct(a, c);
    NamesDistinct(b, c);
    m := new LatestCheckpointManager(map[], 2);
    SaveBelowLimit(m, sa, a);
    assert m.files.Keys == {ca};
    SaveBelowLimit(m, sb, b);
    assert m.files == map[ca := sa, cb := sb];
    SaveThirdStep(m, a, b, c, sc);
    DropFirstOfThree(ca, cb, cc, sa, sb, sc);
  }
}
