/**
 * `RefLogPCheckpointManager`: stores the reference model's log-probabilities for PPO as
 * `ref_logp_ep{episode}_step{step}.pt` records, lists them by (episode, step), returns the
 * latest one and keeps only the last few. The directory is a map from file name to the
 * saved record; whether `torch.save` / `torch.load` succeed is a parameter.
 */
module RefLogP {
  import opened Wrappers
  import opened PyInt
  import opened PyText
  import opened Listing

  const PREFIX := "ref_logp_ep"
  const STEP_SEP := "_step"
  const SUFFIX := ".pt"

  /** The dict `torch.save` writes: `{"logp": ..., "episode": ..., "step": ...}`. */
  datatype RefLogPRecord<L> = RefLogPRecord(logp: L, episode: int, step: int)

  /** `f"ref_logp_ep{episode}_step{step}.pt"`, used by both save and load. */
  function RefLogPName(episode: int, step: int): string {
    PREFIX + IntToString(episode) + STEP_SEP + IntToString(step) + SUFFIX
  }

  /** The listing filter: `startswith("ref_logp_") and endswith(".pt")`. */
  predicate IsRefLogPName(name: string) {
    StartsWith(name, "ref_logp_") && EndsWith(name, SUFFIX)
  }

  /**
   * The sort key `(int(parts[0]), int(parts[1]))` with
   * `parts = name.replace("ref_logp_ep", "").replace(".pt", "").split("_step")`; None where
   * Python raises (too few parts, or `int` fails).
   */
  function RefLogPKey(name: string): Option<Key> {
    PairKey(name, PREFIX, STEP_SEP, SUFFIX)
  }

  /** Every listed file has a key, so the sort does not raise. */
  predicate KeysParse(names: set<string>) {
    forall n <- Matching(names, IsRefLogPName) :: RefLogPKey(n).Some?
  }

  /** Parsing a generated name gives back its (episode, step). */
  lemma RefLogPKeyRoundTrip(episode: int, step: int)
    ensures RefLogPKey(RefLogPName(episode, step)) == Some(Key(episode, step))
  {
    PairKeyRoundTrip(PREFIX, STEP_SEP, SUFFIX, episode, step);
  }

  /** A generated name passes the listing filter. */
  lemma RefLogPNameListed(episode: int, step: int)
    ensures IsRefLogPName(RefLogPName(episode, step))
  {
    var name := RefLogPName(episode, step);
    assert name[..9] == "ref_logp_";
    assert name[|name| - 3..] == SUFFIX;
  }

  /** Different (episode, step) pairs are saved under different names. */
  lemma RefLogPNamesDistinct(e1: int, s1: int, e2: int, s2: int)
    requires (e1, s1) != (e2, s2)
    ensures RefLogPName(e1, s1) != RefLogPName(e2, s2)
  {
    RefLogPKeyRoundTrip(e1, s1);
    RefLogPKeyRoundTrip(e2, s2);
  }

  class RefLogPCheckpointManager<L> {
    /** File name -> saved record, for the `ref_logp` sub-directory. */
    var files: map<string, RefLogPRecord<L>>

    /** The sub-directory may already hold files (`os.makedirs(..., exist_ok=True)`). */
    constructor (existing: map<string, RefLogPRecord<L>>)
      ensures files == existing
    {
      files := existing;
    }

    /**
     * `load_ref_logp`: None when the file of that (episode, step) is missing or `torch.load`
     * fails, its `logp` otherwise.
     */
    function LoadRefLogP(episode: int, step: int, loadOk: bool): (r: Option<L>)
      reads this
      ensures r.Some? <==> RefLogPName(episode, step) in files && loadOk
      ensures r.Some? ==> r.value == files[RefLogPName(episode, step)].logp
    {
      var name := RefLogPName(episode, step);
      if name !in files || !loadOk then None else Some(files[name].logp)
    }

    /**
     * `save_ref_logp`: writes the record and returns its path, or returns "" and changes
     * nothing when `torch.save` fails. After a save, loading the same (episode, step) gives
     * the saved tensor back, and loading any other pair gives what it gave before.
     */
    method SaveRefLogP(logp: L, episode: int, step: int, saveOk: bool) returns (path: string)
      modifies this
      ensures !saveOk ==> path == "" && files == old(files)
      ensures saveOk ==>
        path == RefLogPName(episode, step) && files == old(files)[path := RefLogPRecord(logp, episode, step)]
      ensures saveOk ==> LoadRefLogP(episode, step, true) == Some(logp)
      ensures forall e, s, ok :: (e, s) != (episode, step) ==>
        LoadRefLogP(e, s, ok) == old(LoadRefLogP(e, s, ok))
    {
      if !saveOk {
        return "";
      }
      path := RefLogPName(episode, step);
      files := files[path := RefLogPRecord(logp, episode, step)];
      forall e, s, ok | (e, s) != (episode, step)
        ensures LoadRefLogP(e, s, ok) == old(LoadRefLogP(e, s, ok))
      {
        RefLogPNamesDistinct(e, s, episode, step);
      }
    }

    /** `_list_ref_logp_checkpoints`: the filtered names sorted by (episode, step); Failure where Python raises. */
    method ListRefLogPCheckpoints() returns (r: Result<seq<string>, ListingError>)
      ensures r.Success? <==> KeysParse(files.Keys)
      ensures r.Success? ==> IsListing(r.value, files.Keys, IsRefLogPName, RefLogPKey)
      ensures r.Failure? ==> r.error.name in Matching(files.Keys, IsRefLogPName)
    {
      r := SortedListing(files.Keys, IsRefLogPName, RefLogPKey);
    }

    /**
     * `get_latest_ref_logp`: None for an empty listing or when `torch.load` fails; otherwise
     * the record of the listed file with the largest (episode, step), named `latest`.
     */
    method GetLatestRefLogP(loadOk: bool) returns (r: Result<Option<RefLogPRecord<L>>, ListingError>,
                                                   ghost latest: string)
      ensures r.Success? <==> KeysParse(files.Keys)
      ensures r.Success? ==>
        (r.value.None? <==> Matching(files.Keys, IsRefLogPName) == {} || !loadOk)
      ensures r.Success? && r.value.Some? ==>
        && latest in Matching(files.Keys, IsRefLogPName)
        && r.value.value == files[latest]
        && forall n <- Matching(files.Keys, IsRefLogPName) ::
             KeyLe(RefLogPKey(n).value, RefLogPKey(latest).value)
    {
      latest := "";
      var listing := ListRefLogPCheckpoints();
      if listing.Failure? {
        return Failure(listing.error), latest;
      }
      var l := listing.value;
      if |l| == 0 {
        assert forall n <- Matching(files.Keys, IsRefLogPName) :: n in (set m | m in l);
        return Success(None), latest;
      }
      var last := l[|l| - 1];
      latest := last;
      assert last in (set m | m in l);
      assert last in Matching(files.Keys, IsRefLogPName);
      if !loadOk {
        return Success(None), latest;
      }
      forall n <- Matching(files.Keys, IsRefLogPName)
        ensures KeyLe(RefLogPKey(n).value, RefLogPKey(latest).value)
      {
        LastIsLargest(l, files.Keys, IsRefLogPName, RefLogPKey, n);
      }
      r := Success(Some(files[last]));
    }

    /**
     * `clear_old_checkpoints(keep_last_n)`: deletes `listing[:-keep_last_n]` when the listing
     * is longer than keep_last_n; raises (and deletes nothing) when a key cannot be read.
     */
    method ClearOldCheckpoints(keepLastN: int := 3) returns (r: Result<(), ListingError>, ghost listing: seq<string>)
      modifies this
      ensures r.Success? <==> KeysParse(old(files).Keys)
      ensures r.Failure? ==> files == old(files)
      ensures r.Success? ==> IsListing(listing, old(files).Keys, IsRefLogPName, RefLogPKey)
      ensures r.Success? ==> files == old(files) - Removed(listing, keepLastN)
      ensures keepLastN == 0 ==> files == old(files)
    {
      listing := [];
      var listed := ListRefLogPCheckpoints();
      if listed.Failure? {
        return Failure(listed.error), listing;
      }
      var l := listed.value;
      listing := l;
      if |l| > keepLastN {
        files := DeleteEach(files, SliceTo(l, -keepLastN));
      }
      RemovedNothingAtZero(l);
      r := Success(());
    }
  }

  /**
   * Saving the log-probabilities of episode 1, step 100 into an empty directory and loading
   * the same pair gives them back.
   */
  method SaveThenLoad<L>(logp: L) returns (loaded: Option<L>)
    ensures loaded == Some(logp)
  {
    var m := new RefLogPCheckpointManager(map[]);
    var path := m.SaveRefLogP(logp, 1, 100, true);
    loaded := m.LoadRefLogP(1, 100, true);
  }
}
