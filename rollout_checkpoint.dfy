/**
 * `RolloutResponseCheckpointManager`: pickles batches of rollout responses as
 * `rollout_ep{episode}_batch{batch_id}.pkl`, lists them by (episode, batch), and deletes
 * whole episodes. The directory is a map from file name to the pickled record; whether
 * writing or reading a pickle succeeds is a parameter.
 */
module RolloutCheckpoint {
  import opened Wrappers
  import opened PyInt
  import opened PyText
  import opened Listing

  const PREFIX := "rollout_ep"
  const BATCH_SEP := "_batch"
  const SUFFIX := ".pkl"

  /** The pickled dict: `responses`, `episode`, `batch_id` and `num_samples`. */
  datatype RolloutRecord<R> = RolloutRecord(responses: seq<R>, episode: int, batchId: int, numSamples: int)

  /** `f"rollout_ep{episode}_batch{batch_id}.pkl"`, used by both save and load. */
  function RolloutName(episode: int, batchId: int): string {
    PREFIX + IntToString(episode) + BATCH_SEP + IntToString(batchId) + SUFFIX
  }

  /** The listing filter: `startswith("rollout_ep") and endswith(".pkl")`. */
  predicate IsRolloutName(name: string) {
    StartsWith(name, PREFIX) && EndsWith(name, SUFFIX)
  }

  /** The episode filter `startswith(f"rollout_ep{episode}_")`. */
  predicate InEpisode(name: string, episode: int) {
    StartsWith(name, PREFIX + IntToString(episode) + "_")
  }

  /** The names `list_rollout_batches(episode)` keeps: all rollout files, or those of one episode. */
  predicate Listed(episode: Option<int>, name: string) {
    IsRolloutName(name) && (episode.None? || InEpisode(name, episode.value))
  }

  /**
   * The sort key `(int(parts[0]), int(parts[1]))` with
   * `parts = name.replace("rollout_ep", "").replace(".pkl", "").split("_batch")`.
   */
  function BatchKey(name: string): Option<Key> {
    PairKey(name, PREFIX, BATCH_SEP, SUFFIX)
  }

  /** `int(name.replace("rollout_ep", "").split("_batch")[0])`, the episode `clear_old_episodes` reads. */
  function EpisodeOf(name: string): Option<int> {
    ParseInt(Split(RemoveAll(name, PREFIX), BATCH_SEP)[0])
  }

  /** Every file the listing keeps has a key, so the sort does not raise. */
  predicate KeysParse(names: set<string>, episode: Option<int>) {
    forall n <- Matching(names, n => Listed(episode, n)) :: BatchKey(n).Some?
  }

  /** Every rollout file has an episode that `clear_old_episodes` can read. */
  predicate EpisodesParse(names: set<string>) {
    forall n <- Matching(names, n => Listed(None, n)) :: EpisodeOf(n).Some?
  }

  /** The distinct episodes of the rollout files. */
  ghost function Episodes(names: set<string>): set<int> {
    set n | n in Matching(names, n => Listed(None, n)) && EpisodeOf(n).Some? :: EpisodeOf(n).value
  }

  /** The rollout files of any of the given episodes, as the episode filter selects them. */
  function OfEpisodes(names: set<string>, episodes: set<int>): set<string> {
    set n | n in names && IsRolloutName(n) && exists e <- episodes :: InEpisode(n, e)
  }

  /** Strictly increasing, as `sorted` returns a set of integers. */
  predicate Increasing(s: seq<int>) {
    forall i, j :: 0 <= i < j < |s| ==> s[i] < s[j]
  }

  /** Insertion of a new element into an increasing sequence. */
  function InsertInt(s: seq<int>, x: int): (r: seq<int>)
    ensures forall y :: y in r <==> y in s || y == x
  {
    if |s| == 0 then [x]
    else if x <= s[0] then [x] + s
    else [s[0]] + InsertInt(s[1..], x)
  }

  lemma {:induction false} InsertIntIncreasing(s: seq<int>, x: int)
    requires Increasing(s) && x !in s
    ensures Increasing(InsertInt(s, x))
  {
    if |s| > 0 && x > s[0] {
      assert Increasing(s[1..]) by {
        forall i, j | 0 <= i < j < |s| - 1 ensures s[1..][i] < s[1..][j] {
          assert s[1..][i] == s[i + 1] && s[1..][j] == s[j + 1];
        }
      }
      InsertIntIncreasing(s[1..], x);
      var t := InsertInt(s[1..], x);
      forall k | 0 <= k < |t| ensures s[0] < t[k] {
        assert t[k] in t;
        if t[k] != x {
          var i :| 0 <= i < |s[1..]| && s[1..][i] == t[k];
          assert s[i + 1] == t[k];
        }
      }
      assert InsertInt(s, x) == [s[0]] + t;
    } else if |s| > 0 {
      assert x < s[0];
    }
  }

  /** A generated name passes the listing filter. */
  lemma RolloutNameListed(episode: int, batchId: int)
    ensures IsRolloutName(RolloutName(episode, batchId))
  {
    var name := RolloutName(episode, batchId);
    assert name[..|PREFIX|] == PREFIX && name[|name| - |SUFFIX|..] == SUFFIX;
  }

  /** The sort key of a generated name is its (episode, batch). */
  lemma BatchKeyRoundTrip(episode: int, batchId: int)
    ensures BatchKey(RolloutName(episode, batchId)) == Some(Key(episode, batchId))
  {
    PairKeyRoundTrip(PREFIX, BATCH_SEP, SUFFIX, episode, batchId);
  }

  /** The text `clear_old_episodes` reads out of `rollout_ep{se}_batch{sb}.pkl` is se. */
  lemma EpisodeTextRoundTrip(se: string, sb: string)
    requires 'r' !in se && 'r' !in sb && '_' !in se && '_' !in sb
    ensures Split(RemoveAll(PREFIX + (se + BATCH_SEP + (sb + SUFFIX)), PREFIX), BATCH_SEP)[0] == se
  {
    var rest := se + BATCH_SEP + (sb + SUFFIX);
    assert 'r' !in rest by {
      assert forall c <- rest :: c in se || c in BATCH_SEP || c in sb || c in SUFFIX;
    }
    RemoveLeading(PREFIX, rest);
    SplitPair(se, BATCH_SEP, sb + SUFFIX);
  }

  /** `clear_old_episodes` reads the episode of a generated name back. */
  lemma EpisodeOfRoundTrip(episode: int, batchId: int)
    ensures EpisodeOf(RolloutName(episode, batchId)) == Some(episode)
  {
    var se, sb := IntToString(episode), IntToString(batchId);
    NumberLacks(episode, 'r');
    NumberLacks(batchId, 'r');
    NumberLacks(episode, '_');
    NumberLacks(batchId, '_');
    assert RolloutName(episode, batchId) == PREFIX + (se + BATCH_SEP + (sb + SUFFIX));
    EpisodeTextRoundTrip(se, sb);
    IntRoundTrip(episode);
  }

  /** `rollout_ep{se}_batch{sb}.pkl` starts with `rollout_ep{se}_`. */
  lemma FilterTextKeeps(se: string, sb: string)
    ensures StartsWith(PREFIX + se + BATCH_SEP + sb + SUFFIX, PREFIX + se + "_")
  {
    var p := PREFIX + se + "_";
    var rest := "batch" + sb + SUFFIX;
    assert PREFIX + se + BATCH_SEP + sb + SUFFIX == p + rest;
    StartsWithConcat(p, rest);
  }

  /** The episode filter of a generated name's own episode keeps it. */
  lemma EpisodeFilterKeeps(episode: int, batchId: int)
    ensures InEpisode(RolloutName(episode, batchId), episode)
  {
    FilterTextKeeps(IntToString(episode), IntToString(batchId));
  }

  /** The filter prefix `rollout_ep{sx}_` matches `rollout_ep{se}_batch{sb}.pkl` only when sx is se. */
  lemma FilterTextExact(sx: string, se: string, sb: string)
    requires '_' !in sx && '_' !in se
    requires StartsWith(PREFIX + se + BATCH_SEP + sb + SUFFIX, PREFIX + sx + "_")
    ensures sx == se
  {
    var rest := "batch" + sb + SUFFIX;
    assert PREFIX + se + BATCH_SEP + sb + SUFFIX == PREFIX + (se + ['_'] + rest);
    assert PREFIX + sx + "_" == PREFIX + (sx + ['_']);
    StartsWithMarkedPrefix(PREFIX, sx, se, '_', rest);
  }

  /** The episode filter of another episode rejects a generated name. */
  lemma EpisodeFilterRejects(e: int, episode: int, batchId: int)
    requires InEpisode(RolloutName(episode, batchId), e)
    ensures e == episode
  {
    NumberLacks(e, '_');
    NumberLacks(episode, '_');
    FilterTextExact(IntToString(e), IntToString(episode), IntToString(batchId));
    IntRoundTrip(e);
    IntRoundTrip(episode);
  }

  /** The episode filter of e keeps a generated name exactly when it is of episode e: ep1 does not match ep10. */
  lemma EpisodeFilterExact(e: int, episode: int, batchId: int)
    ensures InEpisode(RolloutName(episode, batchId), e) <==> e == episode
  {
    EpisodeFilterKeeps(episode, batchId);
    if InEpisode(RolloutName(episode, batchId), e) {
      EpisodeFilterRejects(e, episode, batchId);
    }
  }

  /** Different (episode, batch) pairs are pickled under different names. */
  lemma RolloutNamesDistinct(e1: int, b1: int, e2: int, b2: int)
    requires (e1, b1) != (e2, b2)
    ensures RolloutName(e1, b1) != RolloutName(e2, b2)
  {
    PairKeyRoundTrip(PREFIX, BATCH_SEP, SUFFIX, e1, b1);
    PairKeyRoundTrip(PREFIX, BATCH_SEP, SUFFIX, e2, b2);
  }

  /** A listing of a sub-directory keeps parsing, and so does a listing restricted to one episode. */
  lemma KeysParseNarrower(before: set<string>, after: set<string>, episode: int)
    requires KeysParse(before, None) && after <= before
    ensures KeysParse(after, Some(episode))
  {
    forall n <- Matching(after, n => Listed(Some(episode), n)) ensures BatchKey(n).Some? {
      assert n in Matching(before, n => Listed(None, n));
    }
  }

  class RolloutResponseCheckpointManager<R> {
    /** File name -> pickled record, for the `rollout_responses` sub-directory. */
    var files: map<string, RolloutRecord<R>>

    /** The sub-directory may already hold files (`os.makedirs(..., exist_ok=True)`). */
    constructor (existing: map<string, RolloutRecord<R>>)
      ensures files == existing
    {
      files := existing;
    }

    /** `load_rollout_batch`: None when the file is missing or unpickling fails, the record otherwise. */
    function LoadRolloutBatch(episode: int, batchId: int, loadOk: bool): (r: Option<RolloutRecord<R>>)
      reads this
      ensures r.Some? <==> RolloutName(episode, batchId) in files && loadOk
      ensures r.Some? ==> r.value == files[RolloutName(episode, batchId)]
    {
      var name := RolloutName(episode, batchId);
      if name !in files || !loadOk then None else Some(files[name])
    }

    /**
     * `save_rollout_batch`: pickles the record, whose `num_samples` is the number of
     * responses, and returns its path; returns "" and changes nothing when writing fails.
     * Loading the same (episode, batch) then gives the record back, and other pairs are unaffected.
     */
    method SaveRolloutBatch(responses: seq<R>, episode: int, batchId: int, saveOk: bool) returns (path: string)
      modifies this
      ensures !saveOk ==> path == "" && files == old(files)
      ensures saveOk ==> path == RolloutName(episode, batchId)
      ensures saveOk ==> files == old(files)[path := RolloutRecord(responses, episode, batchId, |responses|)]
      ensures saveOk ==> var loaded := LoadRolloutBatch(episode, batchId, true);
        && loaded.Some?
        && loaded.value.responses == responses
        && loaded.value.numSamples == |responses|
        && loaded.value.episode == episode && loaded.value.batchId == batchId
      ensures forall e, b, ok :: (e, b) != (episode, batchId) ==>
        LoadRolloutBatch(e, b, ok) == old(LoadRolloutBatch(e, b, ok))
    {
      if !saveOk {
        return "";
      }
      path := RolloutName(episode, batchId);
      files := files[path := RolloutRecord(responses, episode, batchId, |responses|)];
      forall e, b, ok | (e, b) != (episode, batchId)
        ensures LoadRolloutBatch(e, b, ok) == old(LoadRolloutBatch(e, b, ok))
      {
        RolloutNamesDistinct(e, b, episode, batchId);
      }
    }

    /**
     * `list_rollout_batches(episode)`: the rollout files (of that episode, when given)
     * sorted by (episode, batch); Failure where the sort key raises.
     */
    method ListRolloutBatches(episode: Option<int>) returns (r: Result<seq<string>, ListingError>)
      ensures r.Success? <==> KeysParse(files.Keys, episode)
      ensures r.Success? ==> IsListing(r.value, files.Keys, n => Listed(episode, n), BatchKey)
      ensures r.Failure? ==> r.error.name in Matching(files.Keys, n => Listed(episode, n))
    {
      r := SortedListing(files.Keys, n => Listed(episode, n), BatchKey);
    }

    /** `clear_episode_checkpoints(episode)`: deletes every file the episode's listing holds. */
    method ClearEpisodeCheckpoints(episode: int) returns (r: Result<(), ListingError>)
      modifies this
      ensures r.Success? <==> KeysParse(old(files).Keys, Some(episode))
      ensures r.Failure? ==> files == old(files)
      ensures r.Success? ==> files == old(files) - Matching(old(files).Keys, n => Listed(Some(episode), n))
    {
      var listed := ListRolloutBatches(Some(episode));
      if listed.Failure? {
        return Failure(listed.error);
      }
      var l := listed.value;
      files := DeleteEach(files, l);
      r := Success(());
    }

    /**
     * `clear_old_episodes(keep_last_n_episodes)`: reads the episode of every rollout file,
     * sorts the distinct episodes into `episodes` and clears each of
     * `episodes[:-keep_last_n_episodes]`; a no-op for an empty directory. Failure, with
     * nothing deleted, where the listing or an episode number raises.
     */
    method ClearOldEpisodes(keepLastN: int := 2) returns (r: Result<(), ListingError>, ghost episodes: seq<int>)
      modifies this
      ensures r.Success? <==> KeysParse(old(files).Keys, None) && EpisodesParse(old(files).Keys)
      ensures r.Failure? ==> files == old(files)
      ensures r.Success? ==> Increasing(episodes)
      ensures r.Success? ==> forall e :: e in episodes <==> e in Episodes(old(files).Keys)
      ensures r.Success? ==> files == old(files) - OfEpisodes(old(files).Keys, Removed(episodes, keepLastN))
    {
      episodes := [];
      var listed := ListRolloutBatches(None);
      if listed.Failure? {
        return Failure(listed.error), episodes;
      }
      var l := listed.value;
      ghost var names := files.Keys;
      ghost var all := Matching(names, n => Listed(None, n));
      assert forall n :: n in l <==> n in all by {
        assert forall n :: n in l <==> n in (set m | m in l);
      }
      if |l| == 0 {
        assert Episodes(names) == {};
        assert OfEpisodes(names, Removed(episodes, keepLastN)) == {};
        return Success(()), episodes;
      }
      var read := ReadEpisodes(l, EpisodeOf);
      EpisodesOfListing(l, names);
      if read.Failure? {
        return Failure(read.error), episodes;
      }
      var sorted := read.value;
      episodes := sorted;
      if |sorted| > keepLastN {
        var toRemove := SliceTo(sorted, -keepLastN);
        ClearEpisodes(toRemove);
        assert (set x | x in toRemove) == Removed(episodes, keepLastN);
      } else {
        assert OfEpisodes(names, Removed(episodes, keepLastN)) == {};
      }
      r := Success(());
    }

    /** The loop of `clear_old_episodes`: `clear_episode_checkpoints` for each episode in turn. */
    method ClearEpisodes(toRemove: seq<int>)
      requires KeysParse(files.Keys, None)
      modifies this
      ensures var eps := set x | x in toRemove; files == old(files) - OfEpisodes(old(files).Keys, eps)
    {
      var i := 0;
      while i < |toRemove|
        invariant 0 <= i <= |toRemove|
        invariant files.Keys <= old(files).Keys
        invariant var eps := set x | x in toRemove[..i]; files == old(files) - OfEpisodes(old(files).Keys, eps)
      {
        ghost var before := files;
        KeysParseNarrower(old(files).Keys, files.Keys, toRemove[i]);
        var cleared := ClearEpisodeCheckpoints(toRemove[i]);
        assert cleared.Success?;
        assert toRemove[..i + 1] == toRemove[..i] + [toRemove[i]];
        ghost var eps := set x | x in toRemove[..i];
        ghost var upTo := toRemove[..i + 1];
        ghost var eps' := set x | x in upTo;
        assert eps' == eps + {toRemove[i]};
        assert files == old(files) - OfEpisodes(old(files).Keys, eps') by {
          forall n ensures n in files <==> n in old(files) && n !in OfEpisodes(old(files).Keys, eps') {
            assert n in OfEpisodes(old(files).Keys, eps') <==>
              n in OfEpisodes(old(files).Keys, eps) || (n in old(files) && Listed(Some(toRemove[i]), n));
          }
        }
        i := i + 1;
      }
      assert toRemove[..i] == toRemove;
    }
  }

  /**
   * The episode of each listed file in turn, collected into `episodes = set()` and then
   * `sorted`: the result is the distinct episodes in increasing order. Failure at the
   * first file whose episode `int` cannot read.
   */
  method ReadEpisodes(l: seq<string>, episodeOf: string -> Option<int>) returns (r: Result<seq<int>, ListingError>)
    ensures r.Success? <==> forall n <- l :: episodeOf(n).Some?
    ensures r.Success? ==> Increasing(r.value)
    ensures r.Success? ==> forall e :: e in r.value <==> exists n <- l :: episodeOf(n) == Some(e)
    ensures r.Failure? ==> exists k :: (0 <= k < |l| && r.error == Unparsable(l[k]) && episodeOf(l[k]).None? &&
                                        forall j :: 0 <= j < k ==> episodeOf(l[j]).Some?)
  {
    var found: seq<int> := [];
    for i := 0 to |l|
      invariant forall j :: 0 <= j < i ==> episodeOf(l[j]).Some?
      invariant Increasing(found)
      invariant forall e :: e in found <==> exists j :: 0 <= j < i && episodeOf(l[j]) == Some(e)
    {
      var e := episodeOf(l[i]);
      if e.None? {
        return Failure(Unparsable(l[i]));
      }
      if e.value !in found {
        InsertIntIncreasing(found, e.value);
        found := InsertInt(found, e.value);
      }
    }
    assert forall e :: (exists j :: 0 <= j < |l| && episodeOf(l[j]) == Some(e)) <==> exists n <- l :: episodeOf(n) == Some(e);
    return Success(found);
  }

  /** For a listing of the rollout files, its episodes are the directory's episodes. */
  lemma EpisodesOfListing(l: seq<string>, names: set<string>)
    requires forall n :: n in l <==> n in Matching(names, n => Listed(None, n))
    ensures (forall n <- l :: EpisodeOf(n).Some?) <==> EpisodesParse(names)
    ensures forall e :: (exists n <- l :: EpisodeOf(n) == Some(e)) <==> e in Episodes(names)
  {
  }

  /**
   * With `keep_last_n_episodes >= 1`, an episode is cleared exactly when it is not among the
   * last `min(n, len(episodes))` of the sorted episodes, and every cleared episode is older
   * than every kept one.
   */
  lemma ClearedEpisodesAreOldest(episodes: seq<int>, n: int, a: int, b: int)
    requires Increasing(episodes) && n >= 1
    requires a in Removed(episodes, n) && b in episodes && b !in Removed(episodes, n)
    ensures a < b
  {
    var k := |episodes| - Min(n, |episodes|);
    RemovedIsHead(episodes, n);
    var head := episodes[..k];
    assert a in head;
    var i :| 0 <= i < k && head[i] == a;
    var j :| 0 <= j < |episodes| && episodes[j] == b;
  }

  /** A rollout file of a cleared episode is deleted, and one of a kept episode is not. */
  lemma GeneratedFileCleared(names: set<string>, cleared: set<int>, episode: int, batchId: int)
    requires RolloutName(episode, batchId) in names
    ensures RolloutName(episode, batchId) in OfEpisodes(names, cleared) <==> episode in cleared
  {
    var name := RolloutName(episode, batchId);
    RolloutNameListed(episode, batchId);
    if episode in cleared {
      EpisodeFilterExact(episode, episode, batchId);
    }
    if name in OfEpisodes(names, cleared) {
      var e :| e in cleared && InEpisode(name, e);
      EpisodeFilterExact(e, episode, batchId);
    }
  }

  /** `clear_old_episodes(0)` deletes nothing: `episodes[:-0]` is empty. */
  lemma ClearNothingAtZero(names: set<string>, episodes: seq<int>)
    ensures OfEpisodes(names, Removed(episodes, 0)) == {}
  {
    RemovedNothingAtZero(episodes);
  }
}
