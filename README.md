# Fault-diagnosis agent and checkpoint managers, modelled in Dafny

This project models the bookkeeping and decision logic of a training fault-diagnosis agent
and of its checkpoint managers:

- the **diagnosis data manager**: a time-windowed store of worker metrics, one FIFO per
  data type. Each store stamps and appends the metric, then evicts that partition's expired
  prefix.
- the **diagnosis agent**: the collector registry with its 30-second floor, the default
  collectors, one tick of a periodic collector, the restart/relaunch decision, `update_config`
  and the stop flag.
- the **diagnosis data types**: worker metrics and diagnosis actions. Their dict-level
  encode and decode keep the defaults of `from_json`.
- the **data collectors**:
  - the xpu-timer metric collector: endpoint and Prometheus text preprocessing;
  - the training-log collector: a cursor into the log and tail truncation;
  - the stack collector: stack-text formatting;
  - the resource collector.
- the **training monitor**: the rank-0 step report, which is accepted only when the record's
  timestamp is more than 15 seconds past the last accepted one, and
  the metrics-file writer.
- the **checkpoint managers**: latest, periodic, reference-LogP and rollout-response. This
  covers their file names and parsing, the filtered and sorted directory listings, and
  "keep the last N" pruning, including Python's `[:-0]` slice.
- the environment helpers and the first-wins singleton registry.

A few Python semantics are written out explicitly:

- `int()` and `str()` on integers: module `PyInt`.
- `str.split`, `str.replace(x, "")`, `str.join`, `splitlines` on `"\n"`, and negative-index
  slices: module `PyText`.

Several things are parameters rather than modelled:

- the clock (`now`) and the environment (a map);
- directory contents (maps from file name to payload);
- whether a save, load, read or report succeeds (`saveOk`, `loadOk`, `readOk`, `reportOk`);
- the HTTP response, whether the port answers (`portOpen`), and the thread-stack snapshot.

The managers and collectors whose fields the source updates are classes with `modifies`
clauses. Naming, parsing and the promises about them are functions and lemmas.

The restart limit is the hard-coded `max_restarts = 3` of controller/diagnosis.py:250
(commented there as something that should come from configuration), not a parameter.

The abstract collector interface becomes a closed datatype, `Diagnosis.CollectorRef`, with
one case per collector class.

## Model

| member | source | states |
|---|---|---|
| Constants.DataTypeFromName | common/constants.py:42-49 | Name lookup of a data type: a found type has that name, and None means no type has it |
| Constants.ActionTypeFromName | common/constants.py:52-59 | Name lookup of an action type: a found type has that name, and None means no type has it |
| Constants.DataTypeNameRoundTrip | common/diagnosis_data.py:58-72 | Looking up a data type's name gives back that type |
| Constants.ActionTypeNameRoundTrip | common/diagnosis_data.py:105-119 | Looking up an action type's name gives back that type |
| Constants.DataTypeNamesDistinct | common/constants.py:42-49 | Distinct data types have distinct names |
| DiagnosisData.NoAction | common/diagnosis_data.py:128-133 | NO_ACTION, no node id or type, empty instance, reason and details |
| DiagnosisData.NodeAction | common/diagnosis_data.py:136-154 | Copies action type, node id, node type, instance and reason; details empty |
| DiagnosisData.MetricToJson | common/diagnosis_data.py:54-66 | The dict has exactly the six metric keys |
| DiagnosisData.IntOr | common/diagnosis_data.py:74-77 | `dict.get(key, default)` for an int field: the default when absent, the stored int otherwise; any other JSON type is rejected (see Left out) |
| DiagnosisData.StrOr | common/diagnosis_data.py:75 | `dict.get(key, default)` for a str field: the default when absent, the stored string otherwise; any other JSON type is rejected (see Left out) |
| DiagnosisData.RequiredStr | common/diagnosis_data.py:72-73 | `data[key]` for a required string field: a missing key raises KeyError; a decoded value is the stored string (other JSON types rejected, see Left out) |
| DiagnosisData.OptIntOf | common/diagnosis_data.py:122 | `data.get("node_id")`: absent and null give None, an integer gives that integer (other JSON types rejected, see Left out) |
| DiagnosisData.OptStrOf | common/diagnosis_data.py:123 | `data.get("node_type")`: absent and null give None, a string gives that string (other JSON types rejected, see Left out) |
| DiagnosisData.MetricFromJson | common/diagnosis_data.py:67-78 | A missing data_type or data_content, or an unknown type name, is an error; a decoded type has the stored name |
| DiagnosisData.MetricRoundTrip | common/diagnosis_data.py:54-78 | Decoding an encoded metric gives back the metric, all six fields |
| DiagnosisData.MetricDefaults | common/diagnosis_data.py:74-77 | Missing node_id, node_type, node_rank and timestamp decode to -1, "", -1 and 0 |
| DiagnosisData.MetricDecodeAgreesWithEncode | common/diagnosis_data.py:54-78 | Every metric key present in a decodable dict holds the value the decoded metric encodes to |
| DiagnosisData.ActionToJson | common/diagnosis_data.py:101-112 | The dict has exactly the six action keys |
| DiagnosisData.DetailsOf | common/diagnosis_data.py:124 | `data.get("details", {})`: the empty object when absent, the stored object otherwise (other JSON types rejected, see Left out) |
| DiagnosisData.ActionFromJson | common/diagnosis_data.py:114-125 | A missing or unknown action_type is an error; a decoded type has the stored name |
| DiagnosisData.ActionRoundTrip | common/diagnosis_data.py:101-125 | Decoding an encoded action gives back the action, details included |
| DiagnosisData.ActionDefaults | common/diagnosis_data.py:120-124 | A dict with only action_type decodes with no node id or type, empty instance and reason, empty details |
| DiagnosisData.NoActionRoundTrip | common/diagnosis_data.py:128-133 | NoAction decodes back to a record with NoAction's fields, and its node id encodes as null |
| Utils.IntFromEnv | common/utils.py:26-34 | The parsed value when the variable is set and is an integer; the default when it is absent or does not parse |
| Utils.GetEnv | common/utils.py:21-23 | `os.getenv(key, default)`: the variable's value when set, else the default; NodeGettersRoundTrip and NodeGettersDefaults pin the getters built on it |
| Utils.GetNodeId | common/utils.py:26-34 | NODE_ID read as an integer, -1 when unset or unparsable (NodeGettersRoundTrip, NodeGettersDefaults) |
| Utils.GetNodeType | common/utils.py:37-41 | NODE_TYPE, "worker" when unset (NodeGettersRoundTrip, NodeGettersDefaults) |
| Utils.GetNodeRank | common/utils.py:44-52 | NODE_RANK read as an integer, -1 when unset or unparsable (NodeGettersRoundTrip, NodeGettersDefaults) |
| Utils.GetLocalRank | common/utils.py:55-63 | LOCAL_RANK read as an integer, 0 when unset or unparsable (NodeGettersRoundTrip, NodeGettersDefaults) |
| Utils.IntFromEnvRoundTrip | common/utils.py:30-34 | An integer written into the environment is read back |
| Utils.NodeGettersDefaults | common/utils.py:26-63 | With no variables set: node id -1, node type "worker", node rank -1, local rank 0 |
| Utils.NodeGettersRoundTrip | common/utils.py:26-63 | Each getter reads back the value written under its variable |
| Utils.SingletonRegistry.constructor | common/utils.py:88 | The registry starts empty |
| Utils.SingletonRegistry.SingletonInstance | common/utils.py:96-102 | First call for a class stores the new instance; later calls return the stored one and ignore the new one |
| Utils.SingletonScenario | common/utils.py:96-102 | Two calls for one class give the first instance; another class gets its own |
| PyInt.DigitsRoundTrip | ckpt_manager/latest_checkpoint.py:57 | Reading back the decimal digits of a natural number gives that number |
| PyInt.IntRoundTrip | ckpt_manager/latest_checkpoint.py:57-135 | `int(str(i)) == i` for every integer, which name parsing relies on |
| PyText.SplitStep | ckpt_manager/ref_logp_ckpt.py:140-143 | Splitting p + sep + rest, where p lacks sep's first character, gives p and then the pieces of rest |
| PyText.SplitJoin | ckpt_manager/ref_logp_ckpt.py:140-143 | Splitting a join by a separator that occurs in no piece gives back the pieces |
| PyText.SplitLinesOfJoin | agent/data_collector/metric_collector.py:77-82 | Splitting lines of a newline join gives back the lines, minus one final empty line |
| DataManager.Stamped | controller/data_manager.py:55-57 | Timestamp 0 becomes `now`; any other timestamp and every other field is kept |
| DataManager.Evicted | controller/data_manager.py:123-128 | The survivors are no more than the partition, and the first survivor is at or after the cutoff |
| DataManager.EvictedIsSuffix | controller/data_manager.py:123-128 | The survivors are a suffix of the partition: eviction only drops from the front |
| DataManager.EvictStep | controller/data_manager.py:124-125 | Popping one expired head entry does not change the result of eviction |
| DataManager.PopExpired | controller/data_manager.py:123-128 | The `popleft` loop ends with exactly the evicted suffix of the partition |
| DataManager.EvictedDropsOnlyExpired | controller/data_manager.py:124-128 | Every evicted entry is older than the cutoff |
| DataManager.EvictedUnique | controller/data_manager.py:124-128 | Eviction stops exactly at the first entry not older than the cutoff |
| DataManager.EvictionStopsAtFirstFresh | controller/data_manager.py:124-128 | Everything from an entry at or after the cutoff survives in order, older ones behind it included |
| DataManager.ForNode | controller/data_manager.py:88-89 | Only entries of that node, or all entries when no node is given; ForNodeConcat and ForNodeOne pin order and multiplicity |
| DataManager.OnNode | controller/data_manager.py:88-89 | The comprehension's test `d.node_id == node_id`, always true when no node is given |
| DataManager.ForNodeCons | controller/data_manager.py:89 | Filtering an entry followed by more: the entry when it is on the node, then the rest filtered |
| DataManager.ForNodeOne | controller/data_manager.py:89 | One entry is kept exactly when it is on the node |
| DataManager.ForNodeConcat | controller/data_manager.py:89 | Filtering a concatenation is the concatenation of the filtered parts: the comprehension keeps order and multiplicity |
| DataManager.ForNodeEmpty | controller/data_manager.py:88-89 | The filter keeps nothing exactly when no entry is on the node |
| DataManager.ForNodeLast | controller/data_manager.py:88-92 | The last entry kept is an entry on the node with no entry on the node after it |
| DataManager.DiagnosisDataManager.constructor | controller/data_manager.py:32-41 | The given retention and an empty store |
| DataManager.DiagnosisDataManager.StoreData | controller/data_manager.py:43-62 | Only the written partition changes: created if absent, the metric stamped with the first clock reading appended, then the prefix expired at the second reading evicted |
| DataManager.DiagnosisDataManager.CleanOldData | controller/data_manager.py:110-128 | Absent type: nothing changes; otherwise the partition becomes its evicted suffix and the others are unchanged |
| DataManager.DiagnosisDataManager.GetData | controller/data_manager.py:64-92 | With the defaults no node filter and `limit` 100: [] for an absent type; otherwise the last `limit` node-matching entries in order (all of them for limit 0) |
| DataManager.DiagnosisDataManager.GetLatestData | controller/data_manager.py:94-108 | The last node-matching entry, None when there is none |
| DataManager.DiagnosisDataManager.ClearData | controller/data_manager.py:130-141 | None clears the store; a known type is emptied but kept; an unknown type changes nothing |
| DataManager.DiagnosisDataManager.GetDataCount | controller/data_manager.py:143-156 | The partition length, 0 for an absent type |
| DataManager.LatestIsLastOfQuery | controller/data_manager.py:107-108 | The latest entry is the last of an unbounded query, and None iff that query is empty |
| DataManager.LatestIsLastOnNode | controller/data_manager.py:94-108 | The latest entry is the last entry of the partition on the node, and None exactly when no entry is on the node |
| DataManager.RetentionSteps | controller/data_manager.py:120-128 | With retention 10, entries at 1, 5 and 9 all survive, and an entry at 20 evicts the three |
| DataManager.RetentionScenario | controller/data_manager.py:43-62 | Storing at 1, 5, 9 and 20 with retention 10 leaves only the entry stamped 20 |
| DataManager.RetentionQuery | controller/data_manager.py:64-92 | The query after that scenario returns only the entry stamped 20 |
| Listing.InsertByKey | ckpt_manager/latest_checkpoint.py:134-136 | Inserting one name adds it and keeps every other name, all keyed |
| Listing.InsertKeepsSorted | ckpt_manager/latest_checkpoint.py:134-136 | Insertion keeps the sequence sorted by key |
| Listing.InsertKeepsDistinct | ckpt_manager/latest_checkpoint.py:128-131 | Insertion of a new name keeps the names distinct |
| Listing.SortedListing | ckpt_manager/latest_checkpoint.py:117-137 | Succeeds iff every matching name parses; then exactly the matching names, each once, sorted by key; else a failing name |
| Listing.LastIsLargest | ckpt_manager/latest_checkpoint.py:111-113 | The last listed name has the largest key among the matching names |
| Listing.FirstIsSmallest | ckpt_manager/latest_checkpoint.py:134-136 | The first listed name has the smallest key |
| Listing.ConsSorted | ckpt_manager/latest_checkpoint.py:134-136 | A name whose key is at most every key of a sorted sequence can go first and keep it sorted |
| Listing.FirstOfThree | ckpt_manager/latest_checkpoint.py:134-136 | Among three matching names, one with a strictly smallest key is listed first |
| Listing.ListingLength | ckpt_manager/latest_checkpoint.py:127-131 | A listing is as long as the set of matching names |
| Listing.DistinctCard | ckpt_manager/latest_checkpoint.py:127-131 | A repetition-free listing has as many names as its set |
| Listing.CutKeepsLargest | ckpt_manager/latest_checkpoint.py:145 | In a sorted listing every name before a cut has a key at most that of every name after it |
| Listing.DistinctCut | ckpt_manager/latest_checkpoint.py:145 | In a repetition-free listing the tail after a cut is exactly the names not in the head |
| Listing.MatchingAll | ckpt_manager/latest_checkpoint.py:128-129 | When every name passes the filter, the filter keeps all of them |
| Listing.ThreeKeepTwo | ckpt_manager/latest_checkpoint.py:143-145 | Keeping two of a listing of three names removes exactly the one with the smallest key |
| Listing.RemovedFirstOfThree | ckpt_manager/latest_checkpoint.py:143-145 | `l[:-2]` of a three-entry listing is its first entry |
| Listing.RemovedIsHead | ckpt_manager/latest_checkpoint.py:143-145 | For keep >= 1 the removed names are the head before the last `keep` |
| Listing.RemovedNothingAtZero | ckpt_manager/latest_checkpoint.py:145 | `l[:-0]` is empty: keep 0 removes nothing |
| Listing.RemovedAreListed | ckpt_manager/latest_checkpoint.py:128-129 | Only files matching the name pattern are ever removed |
| Listing.RemovalKeepsTail | ckpt_manager/latest_checkpoint.py:141-151 | For keep >= 1 the matching files left are exactly the last `keep` listed |
| Listing.RemovalKeepsLargest | ckpt_manager/latest_checkpoint.py:141-151 | Every removed file has a key at most that of every kept one |
| Listing.ShortListingKept | ckpt_manager/latest_checkpoint.py:143 | With no more files than `keep`, nothing is removed |
| Listing.DeleteEach | ckpt_manager/latest_checkpoint.py:146-151 | The removal loop leaves the directory minus exactly the listed names |
| Listing.PairKeyRoundTrip | ckpt_manager/ref_logp_ckpt.py:140-143 | The key parsed from a generated two-number name is its two numbers |
| Listing.NumberLacks | ckpt_manager/ref_logp_ckpt.py:56 | A formatted integer contains no letter or separator character |
| LatestCheckpoint.StepKeyRoundTrip | ckpt_manager/latest_checkpoint.py:56-57 | A generated name is listed, and its parsed step is the step it was saved with |
| LatestCheckpoint.CheckpointName | ckpt_manager/latest_checkpoint.py:56-57 | `checkpoint_step_{step}.pt`; StepKeyRoundTrip parses it back and NamesDistinct shows it injective |
| LatestCheckpoint.IsCheckpointName | ckpt_manager/latest_checkpoint.py:129 | The listing filter: starts with "checkpoint_step_" and ends with ".pt"; StepKeyRoundTrip shows generated names pass it |
| LatestCheckpoint.StepKey | ckpt_manager/latest_checkpoint.py:134-136 | `int(x.split("_step_")[-1].split(".pt")[0])`, None where int raises; StepKeyRoundTrip inverts CheckpointName |
| LatestCheckpoint.NamesDistinct | ckpt_manager/latest_checkpoint.py:56-57 | Distinct steps give distinct file names |
| LatestCheckpoint.NewestSurvives | ckpt_manager/latest_checkpoint.py:139-151 | The checkpoint with the largest step survives cleanup for max >= 1 |
| LatestCheckpoint.LatestCheckpointManager.constructor | ckpt_manager/latest_checkpoint.py:30-43 | The given directory and limit, and no latest path |
| LatestCheckpoint.LatestCheckpointManager.ListCheckpoints | ckpt_manager/latest_checkpoint.py:117-137 | Succeeds iff every checkpoint name parses; then the checkpoint names sorted by step |
| LatestCheckpoint.LatestCheckpointManager.CleanupOldCheckpoints | ckpt_manager/latest_checkpoint.py:139-151 | Raises iff a name does not parse, changing nothing; else removes exactly all but the last `max` listed |
| LatestCheckpoint.LatestCheckpointManager.Save | ckpt_manager/latest_checkpoint.py:45-71 | Failure: "" and nothing changes; success: file written, latest set, old checkpoints cleaned ("" if the listing raises) |
| LatestCheckpoint.LatestCheckpointManager.Load | ckpt_manager/latest_checkpoint.py:73-96 | Uses the remembered path when none is given; None when unset, missing or the load fails, else the saved state |
| LatestCheckpoint.LatestCheckpointManager.GetLatestCheckpointPath | ckpt_manager/latest_checkpoint.py:98-115 | The remembered path if it exists, else the highest-step listed file, else None |
| LatestCheckpoint.ParsedNamesParse | ckpt_manager/latest_checkpoint.py:128-135 | Names that each parse make the listing succeed |
| LatestCheckpoint.ThreeStepsParse | ckpt_manager/latest_checkpoint.py:128-135 | Three generated names all parse |
| LatestCheckpoint.ThirdStepDropsFirst | ckpt_manager/latest_checkpoint.py:143-145 | With keep 2 and steps a < b < c, exactly step a is removed |
| LatestCheckpoint.SaveBelowLimit | ckpt_manager/latest_checkpoint.py:60-66 | A save below the limit adds the file and removes nothing |
| LatestCheckpoint.SaveThirdStep | ckpt_manager/latest_checkpoint.py:60-66 | A third save with limit 2 adds the new file and removes the oldest |
| LatestCheckpoint.DropFirstOfThree | ckpt_manager/latest_checkpoint.py:60-66 | Adding a third file and removing the first leaves exactly the second and third |
| LatestCheckpoint.SaveThreeKeepTwo | tests/test_basic.py:80-100 | Saves at three increasing steps with max 2 keep the last two; loading the latest gives the third state |
| PeriodicCheckpoint.FirstDueStep | ckpt_manager/periodic_checkpoint.py:48-66 | From the initial -1, a positive step is due iff step >= interval - 1 |
| PeriodicCheckpoint.Due | ckpt_manager/periodic_checkpoint.py:50-66 | Never at step 0, otherwise due once the interval has passed since the last saved step; FirstDueStep, DueStaysDue and NotDueAfterSave state its consequences |
| PeriodicCheckpoint.PeriodicCheckpointManager.ShouldSave | ckpt_manager/periodic_checkpoint.py:50-66 | `should_save`: Due of the manager's last saved step and interval |
| PeriodicCheckpoint.DueStaysDue | ckpt_manager/periodic_checkpoint.py:60-66 | A due step stays due at every later non-zero step |
| PeriodicCheckpoint.NotDueAfterSave | ckpt_manager/periodic_checkpoint.py:63-66 | For interval >= 1 the step just saved is not due again |
| PeriodicCheckpoint.AllParseAfterSave | ckpt_manager/periodic_checkpoint.py:98 | A save keeps every checkpoint name parseable |
| PeriodicCheckpoint.PeriodicCheckpointManager.constructor | ckpt_manager/periodic_checkpoint.py:32-48 | Latest manager with the given limit, the given interval, last saved step -1 |
| PeriodicCheckpoint.PeriodicCheckpointManager.Save | ckpt_manager/periodic_checkpoint.py:87-101 | The base save; last saved step becomes `step` iff it returned a non-empty path |
| PeriodicCheckpoint.PeriodicCheckpointManager.SaveIfNeeded | ckpt_manager/periodic_checkpoint.py:68-85 | True iff due and the save returned a path; then last saved = step. Not due, or a failed write, leaves the files and latest path unchanged. A write followed by a cleanup listing that raises keeps the written file and sets latest, and still reports false |
| PeriodicCheckpoint.IntervalSchedule | tests/test_basic.py:102-120 | Interval 500 over steps 0, 100, ..., 1400 saves at 500 and 1000 only |
| RefLogP.RefLogPKeyRoundTrip | ckpt_manager/ref_logp_ckpt.py:140-143 | Parsing a generated name gives back (episode, step) |
| RefLogP.RefLogPName | ckpt_manager/ref_logp_ckpt.py:55-57 | `ref_logp_ep{episode}_step{step}.pt`; RefLogPKeyRoundTrip parses it back and RefLogPNamesDistinct shows it injective |
| RefLogP.IsRefLogPName | ckpt_manager/ref_logp_ckpt.py:135 | The listing filter: starts with "ref_logp_" and ends with ".pt"; RefLogPNameListed shows generated names pass it |
| RefLogP.RefLogPKey | ckpt_manager/ref_logp_ckpt.py:140-143 | `(int(parts[0]), int(parts[1]))` after the prefix and suffix are removed and the rest split on "_step", None where int raises |
| RefLogP.RefLogPNameListed | ckpt_manager/ref_logp_ckpt.py:135 | A generated name passes the listing filter |
| RefLogP.RefLogPNamesDistinct | ckpt_manager/ref_logp_ckpt.py:55-57 | Distinct (episode, step) pairs give distinct names |
| RefLogP.RefLogPCheckpointManager.constructor | ckpt_manager/ref_logp_ckpt.py:31-39 | The given directory contents |
| RefLogP.RefLogPCheckpointManager.LoadRefLogP | ckpt_manager/ref_logp_ckpt.py:74-101 | The stored logp iff the file exists and the load succeeds, else None |
| RefLogP.RefLogPCheckpointManager.SaveRefLogP | ckpt_manager/ref_logp_ckpt.py:41-72 | Failure: "" and nothing changes; success: the record is stored under the shared name, loads back, other keys unaffected |
| RefLogP.RefLogPCheckpointManager.ListRefLogPCheckpoints | ckpt_manager/ref_logp_ckpt.py:123-146 | Succeeds iff every name parses; then the matching names sorted by (episode, step) |
| RefLogP.RefLogPCheckpointManager.GetLatestRefLogP | ckpt_manager/ref_logp_ckpt.py:103-121 | None for an empty listing; else the record with the largest (episode, step), or None when the load fails |
| RefLogP.RefLogPCheckpointManager.ClearOldCheckpoints | ckpt_manager/ref_logp_ckpt.py:148-164 | Removes exactly all but the last n listed; n = 0 removes nothing; raises, changing nothing, on an unparsable name |
| RefLogP.SaveThenLoad | tests/test_basic.py:122-138 | Saving episode 1 step 100 then loading it gives the saved logp |
| RolloutCheckpoint.InsertInt | ckpt_manager/rollout_response_checkpoint.py:191-194 | Adds one episode to the sorted episode list, keeping all others |
| RolloutCheckpoint.RolloutName | ckpt_manager/rollout_response_checkpoint.py:62-65 | `rollout_ep{episode}_batch{batch_id}.pkl`; BatchKeyRoundTrip parses it back and RolloutNamesDistinct shows it injective |
| RolloutCheckpoint.IsRolloutName | ckpt_manager/rollout_response_checkpoint.py:135 | The listing filter: starts with "rollout_ep" and ends with ".pkl"; RolloutNameListed shows generated names pass it |
| RolloutCheckpoint.InEpisode | ckpt_manager/rollout_response_checkpoint.py:137 | The episode filter `startswith(f"rollout_ep{episode}_")`; EpisodeFilterExact shows it keeps a generated file exactly when the episodes agree |
| RolloutCheckpoint.BatchKey | ckpt_manager/rollout_response_checkpoint.py:144-151 | `(int(parts[0]), int(parts[1]))` of the name without prefix and suffix split on "_batch", None where int raises; BatchKeyRoundTrip inverts RolloutName |
| RolloutCheckpoint.EpisodeOf | ckpt_manager/rollout_response_checkpoint.py:188-190 | `int(filename.replace("rollout_ep", "").split("_batch")[0])`, None where int raises; EpisodeOfRoundTrip reads back a generated file's episode |
| RolloutCheckpoint.InsertIntIncreasing | ckpt_manager/rollout_response_checkpoint.py:194 | Insertion of a new episode keeps the list strictly increasing |
| RolloutCheckpoint.RolloutNameListed | ckpt_manager/rollout_response_checkpoint.py:135 | A generated name passes the listing filter |
| RolloutCheckpoint.BatchKeyRoundTrip | ckpt_manager/rollout_response_checkpoint.py:144-151 | Parsing a generated name gives back (episode, batch_id) |
| RolloutCheckpoint.EpisodeTextRoundTrip | ckpt_manager/rollout_response_checkpoint.py:188-190 | Stripping the prefix and splitting at "_batch" gives back the episode text |
| RolloutCheckpoint.EpisodeOfRoundTrip | ckpt_manager/rollout_response_checkpoint.py:186-191 | The episode parsed from a generated name is its episode |
| RolloutCheckpoint.FilterTextKeeps | ckpt_manager/rollout_response_checkpoint.py:137 | A name built from episode text e starts with the prefix, e and "_" |
| RolloutCheckpoint.FilterTextExact | ckpt_manager/rollout_response_checkpoint.py:137 | If a name built from episode text e starts with the prefix, x and "_", and neither text contains "_", then x is e |
| RolloutCheckpoint.EpisodeFilterKeeps | ckpt_manager/rollout_response_checkpoint.py:136-138 | The episode filter keeps every file of that episode |
| RolloutCheckpoint.EpisodeFilterRejects | ckpt_manager/rollout_response_checkpoint.py:136-138 | A file kept by the filter for e belongs to episode e, so ep1 does not match ep10 |
| RolloutCheckpoint.EpisodeFilterExact | ckpt_manager/rollout_response_checkpoint.py:136-138 | A generated file passes the filter for e iff its episode is e |
| RolloutCheckpoint.RolloutNamesDistinct | ckpt_manager/rollout_response_checkpoint.py:62-65 | Distinct (episode, batch_id) pairs give distinct names |
| RolloutCheckpoint.KeysParseNarrower | ckpt_manager/rollout_response_checkpoint.py:133-153 | If the unfiltered listing parses, every filtered listing of a sub-directory parses |
| RolloutCheckpoint.RolloutResponseCheckpointManager.constructor | ckpt_manager/rollout_response_checkpoint.py:30-38 | The given directory contents |
| RolloutCheckpoint.RolloutResponseCheckpointManager.LoadRolloutBatch | ckpt_manager/rollout_response_checkpoint.py:86-118 | The stored record iff the file exists and the load succeeds, else None |
| RolloutCheckpoint.RolloutResponseCheckpointManager.SaveRolloutBatch | ckpt_manager/rollout_response_checkpoint.py:40-84 | Failure: ""; success: record with num_samples = len(responses) under the shared name, loads back, others unaffected |
| RolloutCheckpoint.RolloutResponseCheckpointManager.ListRolloutBatches | ckpt_manager/rollout_response_checkpoint.py:120-154 | Succeeds iff every listed name parses; then the names of that episode (or all) sorted by (episode, batch_id) |
| RolloutCheckpoint.RolloutResponseCheckpointManager.ClearEpisodeCheckpoints | ckpt_manager/rollout_response_checkpoint.py:156-170 | Removes exactly the files of that episode; raises, changing nothing, on an unparsable name |
| RolloutCheckpoint.RolloutResponseCheckpointManager.ClearOldEpisodes | ckpt_manager/rollout_response_checkpoint.py:172-200 | Collects the distinct episodes in increasing order and removes every file of all but the last n of them |
| RolloutCheckpoint.RolloutResponseCheckpointManager.ClearEpisodes | ckpt_manager/rollout_response_checkpoint.py:199-200 | Clearing a list of episodes removes exactly their files |
| RolloutCheckpoint.ReadEpisodes | ckpt_manager/rollout_response_checkpoint.py:184-194 | Succeeds iff every name parses, and a failure names the first name that does not; on success the distinct episodes, strictly increasing |
| RolloutCheckpoint.EpisodesOfListing | ckpt_manager/rollout_response_checkpoint.py:179-191 | The episodes read from the listing are exactly those of the directory's rollout files |
| RolloutCheckpoint.ClearedEpisodesAreOldest | ckpt_manager/rollout_response_checkpoint.py:194-198 | Every cleared episode is older than every kept one |
| RolloutCheckpoint.GeneratedFileCleared | ckpt_manager/rollout_response_checkpoint.py:198-200 | A saved batch is removed iff its episode is among the cleared ones |
| RolloutCheckpoint.ClearNothingAtZero | ckpt_manager/rollout_response_checkpoint.py:197-198 | Keep 0 removes nothing (`[:-0]`) |
| MetricCollector.Endpoint | agent/data_collector/metric_collector.py:35-41 | `http://127.0.0.1:<port>/metrics` iff the port variable is set and non-empty, else None |
| MetricCollector.PreprocessMetrics | agent/data_collector/metric_collector.py:66-85 | `_preprocess_metrics`: the kept lines joined by newlines; PreprocessedLinesAreKept, PreprocessIdempotent and PreprocessNotIdempotent state its properties |
| MetricCollector.MetricCollector.IsEnabled | agent/data_collector/metric_collector.py:87-96 | An endpoint is configured and `is_port_in_use` holds: the port reads as an integer and accepts a connection; NoPortDisabled shows it false without a port |
| MetricCollector.KeptLines | agent/data_collector/metric_collector.py:77-82 | Exactly the lines not starting with "#" or "exposer" |
| MetricCollector.KeptLinesOfConcat | agent/data_collector/metric_collector.py:77-82 | The filter works line by line, keeping input order |
| MetricCollector.KeptLinesOfKept | agent/data_collector/metric_collector.py:77-82 | Lines that are all kept pass through unchanged |
| MetricCollector.PreprocessedLinesAreKept | agent/data_collector/metric_collector.py:66-85 | No output line starts with "#" or "exposer"; each is an input line; no more lines than the input |
| MetricCollector.PreprocessIdempotent | agent/data_collector/metric_collector.py:66-85 | Preprocessing its own output changes nothing when the last kept line is non-empty |
| MetricCollector.LinesOfSample | agent/data_collector/metric_collector.py:77 | For a non-empty line x without a newline, the lines of x + "\n\n" are x and ""; of x + "\n", just x |
| MetricCollector.PreprocessFirstPass | agent/data_collector/metric_collector.py:77-82 | A kept line x followed by "\n\n" keeps both its lines and preprocesses to x + "\n" |
| MetricCollector.PreprocessSecondPass | agent/data_collector/metric_collector.py:77-82 | A kept line x followed by "\n" preprocesses to x |
| MetricCollector.PreprocessNotIdempotent | agent/data_collector/metric_collector.py:66-85 | For every kept line x, x + "\n\n" becomes x + "\n" and then x: preprocessing twice differs from preprocessing once |
| MetricCollector.MetricCollector.constructor | agent/data_collector/metric_collector.py:33-42 | Port read from the environment, endpoint built from it |
| MetricCollector.MetricCollector.CollectData | agent/data_collector/metric_collector.py:44-64 | "" when disabled or the request fails; otherwise the preprocessed response |
| MetricCollector.MetricCollector.StoreData | agent/data_collector/metric_collector.py:98-120 | Nothing for a non-string; else an XPU_TIMER_METRIC metric with the text and the node identity |
| MetricCollector.NoPortDisabled | agent/data_collector/metric_collector.py:94-96 | Without a port variable the collector is never enabled |
| LogCollector.TailTextBound | agent/data_collector/log_collector.py:66-70 | For max_lines >= 1 at most max_lines lines; when truncated, the last max_lines lines joined by newlines |
| LogCollector.TailText | agent/data_collector/log_collector.py:66-70 | The new content, or its last max_lines lines joined by newlines when it has more; TailTextBound, TailTextZero and ShortContentVerbatim state its properties |
| LogCollector.LogCollector.IsEnabled | agent/data_collector/log_collector.py:80-90 | A path is set and the file exists |
| LogCollector.TailTextZero | agent/data_collector/log_collector.py:68 | max_lines 0 keeps every line (`[-0:]`) |
| LogCollector.LogCollector.constructor | agent/data_collector/log_collector.py:35-47 | Path and limit as given, cursor 0, no client |
| LogCollector.LogCollector.NewContent | agent/data_collector/log_collector.py:61-62 | The text from the cursor to the end; "" when the cursor is past it |
| LogCollector.LogCollector.EndPosition | agent/data_collector/log_collector.py:63-64 | The file end, or the cursor when it is already past the end |
| LogCollector.LogCollector.SetClient | agent/data_collector/log_collector.py:92-99 | The collector has a client exactly when a truthy one is passed (`None` clears it); the cursor and reports are unchanged |
| LogCollector.LogCollector.CollectData | agent/data_collector/log_collector.py:49-78 | "" and the cursor unchanged when disabled or reading fails; else the tail of the new text, cursor at the end |
| LogCollector.LogCollector.StoreData | agent/data_collector/log_collector.py:101-134 | Nothing for a non-string or ""; else a TRAINING_LOG metric stamped now, reported iff a client is set and the report succeeds |
| LogCollector.CollectTwice | agent/data_collector/log_collector.py:60-64 | A second collect with no growth of the file returns "", and the cursor ends at the end of the file, or stays where it was when already past it |
| LogCollector.ShortContentVerbatim | agent/data_collector/log_collector.py:66-72 | At most max_lines lines: the new content is returned verbatim |
| LogCollector.AppendedIsRead | agent/data_collector/log_collector.py:60-64 | After a collect the next one reads exactly the appended text |
| StackCollector.Indented | agent/data_collector/stack_collector.py:122 | Each frame prefixed by two spaces, in order |
| StackCollector.Header | agent/data_collector/stack_collector.py:120 | `Thread {thread_id} ({name}):` |
| StackCollector.StackLines | agent/data_collector/stack_collector.py:108-123 | The lines of each thread in dict order; StackLinesCount, StackLinesOfConcat and ThreadBlockAt state their count and layout |
| StackCollector.FormatStacks | agent/data_collector/stack_collector.py:108-124 | The lines joined by newlines; FormatEmpty and FormatEndsWithNewline state its ends |
| StackCollector.StackCollector.IsEnabled | agent/data_collector/stack_collector.py:73-80 | The enabled flag, set by the constructor |
| StackCollector.StackLinesCount | agent/data_collector/stack_collector.py:118-124 | Two lines per thread plus one per frame |
| StackCollector.StackLinesOfConcat | agent/data_collector/stack_collector.py:119 | Threads contribute their lines in dict order |
| StackCollector.BlockAfter | agent/data_collector/stack_collector.py:119-123 | A thread's block placed after some lines starts right after them |
| StackCollector.ThreadBlockAt | agent/data_collector/stack_collector.py:119-123 | Thread k's block starts after the earlier threads' lines: header, indented frames in order, empty line |
| StackCollector.FormatEmpty | agent/data_collector/stack_collector.py:118-124 | No threads gives "" |
| StackCollector.FormatEndsWithNewline | agent/data_collector/stack_collector.py:123-124 | A non-empty snapshot's text ends with a newline |
| StackCollector.StackCollector.constructor | agent/data_collector/stack_collector.py:35-37 | Enabled |
| StackCollector.StackCollector.CollectData | agent/data_collector/stack_collector.py:39-71 | {} when disabled or the snapshot fails; otherwise the snapshot |
| StackCollector.StackCollector.StoreData | agent/data_collector/stack_collector.py:82-106 | Nothing for a non-dict; else a STACK_TRACE metric holding the formatted snapshot |
| ResourceCollector.ResourceCollector.constructor | agent/data_collector/resource_collector.py:24-29 | No reports yet |
| ResourceCollector.ResourceCollector.CollectData | agent/data_collector/resource_collector.py:31-39 | Returns None and makes one more resource report |
| ResourceCollector.ResourceCollector.IsEnabled | agent/data_collector/resource_collector.py:41-48 | Always true |
| Diagnosis.ClampedInterval | controller/diagnosis.py:93-97 | At least 30; kept when at least 30, else exactly 30 |
| Diagnosis.DiagnoseTrainingFailure | controller/diagnosis.py:227-274 | RESTART_WORKER iff restart_count < 3, RELAUNCH_WORKER iff >= 3, never NO_ACTION, instance "local", this node |
| Diagnosis.RelaunchIsFinal | controller/diagnosis.py:250-274 | Once relaunch is chosen, every larger restart count also relaunches |
| Diagnosis.DiagnosisRoundTrip | controller/diagnosis.py:227-274 | The decided action decodes back field by field from its encoding |
| Diagnosis.UpdatedConfig | controller/diagnosis.py:290-300 | Log file and errors replaced only when non-empty, node rank only when >= 0 |
| Diagnosis.UpdateConfigStable | controller/diagnosis.py:276-300 | The default arguments change nothing, and updating twice with the same arguments equals once |
| Diagnosis.DiagnosisAgent.constructor | controller/diagnosis.py:46-74 | The given configuration, not stopped, no collectors |
| Diagnosis.DiagnosisAgent.RegisterPeriodicalDataCollector | controller/diagnosis.py:83-101 | The collector's entry set or overwritten with the clamped interval; one entry per collector |
| Diagnosis.DiagnosisAgent.SetupDefaultCollectors | controller/diagnosis.py:125-142 | New resource@30, metric@60, stack@120, and log@60 iff a training log file is configured |
| Diagnosis.DiagnosisAgent.Start | controller/diagnosis.py:103-110 | Not stopped. The registry gains exactly new resource (30), metric (60) and stack (120) collectors, plus a log collector (60) for a configured training log. Earlier entries keep their intervals |
| Diagnosis.DiagnosisAgent.Stop | controller/diagnosis.py:112-123 | Stopped, whatever the previous state; nothing else changes |
| Diagnosis.DiagnosisAgent.UpdateConfig | controller/diagnosis.py:276-300 | The configuration becomes the conditional update; collectors and flag unchanged |
| Diagnosis.CollectorTick | controller/diagnosis.py:187-195 | Disabled: nothing collected or changed. Enabled: stored iff the collected data is not None, with each kind's exact data and metric. For the log collector this is the new cursor, the TRAINING_LOG metric stamped with the tick's time, and the report sent only with a client and a successful report |
| Diagnosis.DefaultCollectorCount | controller/diagnosis.py:125-142 | Default setup registers four collectors with a log file, three without |
| Diagnosis.ReRegister | controller/diagnosis.py:93-97 | Registering one collector twice leaves one entry, at the clamped later interval |
| Diagnosis.FailedFetchIsStored | controller/diagnosis.py:190-193 | An enabled metric collector whose request fails still stores "" |
| TrainingMonitor.NextTimestamp | agent/monitor/training.py:94-117 | The timestamp is unchanged or rises by more than 15 |
| TrainingMonitor.AsInt | agent/monitor/training.py:109 | A JSON value in Python's integer comparison: an integer, a boolean as 0 or 1, None where the comparison raises TypeError |
| TrainingMonitor.FieldOr0 | agent/monitor/training.py:105-106 | `record.get(key, 0)` |
| TrainingMonitor.Accepts | agent/monitor/training.py:96-110 | Rank 0, a JSON object in an existing file, a positive step and a timestamp more than 15 past the last; NextTimestampAccepts shows a report changes the timestamp exactly then |
| TrainingMonitor.NextTimestampAccepts | agent/monitor/training.py:96-110 | Changes iff rank 0, the file is a dict, step > 0 and timestamp - last > 15; then to that timestamp |
| TrainingMonitor.ReportRun | agent/monitor/training.py:109-110 | k accepted reports raise the timestamp by at least 16k; off rank 0 nothing is accepted |
| TrainingMonitor.MetricsRecord | agent/monitor/training.py:142 | Exactly the keys "step" and "timestamp" with the given values |
| TrainingMonitor.WrittenRecordAccepted | agent/monitor/training.py:106-110 | A written record is accepted on rank 0 iff step > 0 and more than 15 s have passed |
| TrainingMonitor.MissingKeysIgnored | agent/monitor/training.py:106-109 | A record missing "step" or "timestamp" is not accepted, given a last timestamp of at least -15 (the initial 0 and every accepted timestamp satisfy this) |
| TrainingMonitor.TrainingMonitor.constructor | agent/monitor/training.py:34-58 | Timestamp 0, group rank from the environment; a stale metrics file removed when removal succeeds |
| TrainingMonitor.TrainingMonitor.Start | agent/monitor/training.py:60-84 | Clears the stop flag iff monitoring is enabled in the environment |
| TrainingMonitor.TrainingMonitor.Stop | agent/monitor/training.py:86-92 | Stopped; timestamp unchanged |
| TrainingMonitor.TrainingMonitor.ReportStep | agent/monitor/training.py:94-117 | The timestamp follows the report rule for the file as it now is |
| TrainingMonitor.WriteTrainingMetrics | agent/monitor/training.py:128-144 | On success the file holds {step, timestamp or now}; on failure nothing changes |
| TrainingMonitor.ReportSchedule | agent/monitor/training.py:94-142 | Reports at t = 100, 110, 116 on rank 0 accept 100, reject 110, accept 116 |

## Left out

- Threads, sleeps, joins, the heartbeat loop and the `_stopped` polling
  (`_start_data_collection`, `_start_periodic_report`, `send_heartbeat`, the monitor's
  reporting thread). The polling loop is modelled as one collector tick, `Diagnosis.CollectorTick`.
- Locks in the data manager and the singleton registry: only sequential behaviour is modelled.
- `agent/monitor/resource.py` (psutil and pynvml calls, float arithmetic). `report_resource`
  is a counter on `ResourceCollector`.
- HTTP requests and sockets. `is_port_in_use` is the `portOpen` parameter together with an
  integer check of the port. The response is an `Option<string>`.
- `sys._current_frames` and `traceback` are the snapshot parameter. A thread without a
  known name is not distinguished: the name is part of the snapshot.
- File I/O and serialisation (`torch.save`, `torch.load`, `pickle`, `open`, `os.remove`,
  `os.makedirs`): success is a boolean parameter and payloads are opaque. A failed
  `os.remove` inside a cleanup loop is not modelled; every listed file is removed.
- Paths are file names inside the manager's directory; the directory prefix and
  `os.path.join` are not modelled.
- Log positions are character offsets; text-mode `tell()` cookies and `errors="ignore"`
  decoding are not modelled.
- JSON text: encode and decode are at the dict level. Floats are not part of the JSON model.
- `int()` accepts decimal digits with an optional sign; surrounding whitespace and
  underscores between digits are not modelled. `splitlines` is modelled on `"\n"` only.
- Ties in sort keys: a listing with two names of the same key may order them either way,
  where Python's order depends on `os.listdir`.
- The listing a cleanup works from is a ghost out-parameter of the cleanup methods, and the
  rollout episodes are kept as a sorted sequence rather than a Python set.
- `diagnose_training_failure`'s `failures` argument is only logged, so it is not an input of
  `Diagnosis.DiagnoseTrainingFailure`.
- The master client is abstracted to `hasClient` and the `reported` sequence of
  `LogCollector`.
- The `Singleton` base of `DiagnosisAgent` and `TrainingMonitor`: instances are built with
  constructors. `Utils.SingletonRegistry` models `singleton_instance` on its own.
- Calling `start` again registers a fresh set of default collectors, as the source does.
  The model does not track the threads that `start` launches.
- MetricCollector.PreprocessIdempotent: holds only when the last kept line is not empty.
  `MetricCollector.PreprocessNotIdempotent` shows that preprocessing is not idempotent in
  general: for any kept line x, x + "\n\n" becomes x + "\n" and then x.
- DataManager.DiagnosisDataManager.StoreData: the source also sets the caller's metric
  object's timestamp in place (aliasing); the model stores a stamped copy.
- DiagnosisData.IntOr: a present value that is not a JSON integer (a string, a boolean,
  null) is a `WrongType` failure; Python's `data.get` returns it unchecked and the
  dataclass stores it. The model's metric and action fields are typed, so it cannot hold
  such values.
- DiagnosisData.StrOr: likewise, a present value that is not a JSON string is a
  `WrongType` failure, where Python stores it as it is.
- DiagnosisData.RequiredStr: a present `data_content` that is not a string is a
  `WrongType` failure, where Python stores it as it is. A missing key raises in both.
- DiagnosisData.OptIntOf: a present `node_id` that is neither an integer nor null is a
  `WrongType` failure, where Python stores it.
- DiagnosisData.OptStrOf: a present `node_type` that is neither a string nor null is a
  `WrongType` failure, where Python stores it.
- DiagnosisData.DetailsOf: a present `details` that is not an object (null included) is a
  `WrongType` failure, where Python stores it.
- DiagnosisData.MetricFromJson: through the field decoders above, it rejects ill-typed
  `data_content` and node fields that `from_json` accepts. Only a missing or unknown
  `data_type` fails in both, because the enum lookup raises there.
- DiagnosisData.ActionFromJson: through the field decoders above, it rejects
  `details: null` and ill-typed node fields that `from_json` accepts. Only a missing or
  unknown `action_type` fails in both.
- DiagnosisData.NoActionRoundTrip: `NoAction` and `NodeAction` are the base
  `DiagnosisAction` record with fixed fields, so the model does not keep the subclass.
  `DiagnosisAction.from_json` always builds the base class, and dataclass `__eq__`
  compares classes, so in Python the decoded value equals `NoAction()` field by field
  but is not `==` to it. The round trip holds field by field.
- Diagnosis.DiagnosisRoundTrip: for the same reason, the decoded action equals the
  decided `NodeAction` field by field, not under Python's `==`.
