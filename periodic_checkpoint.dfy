/**
 * `PeriodicCheckpointManager`: a `LatestCheckpointManager` that also remembers the last
 * step it saved and saves again only once `save_interval` steps have passed. The subclass
 * is modelled by composition: the latest-checkpoint manager it extends is the field `base`.
 */
module PeriodicCheckpoint {
  import opened Wrappers
  import opened Listing
  import opened LatestCheckpoint

  /** The `should_save` rule: never at step 0, otherwise once `interval` steps have passed since `lastSaved`. */
  predicate Due(lastSaved: int, interval: int, step: int) {
    step != 0 && step - lastSaved >= interval
  }

  /**
   * Before any save (`lastSaved = -1`) a positive step is due from `interval - 1` on, one
   * step earlier than the interval itself.
   */
  lemma FirstDueStep(interval: int, step: int)
    requires step > 0
    ensures Due(-1, interval, step) <==> step >= interval - 1
  {
  }

  /** Once a step is due, every later non-zero step is due as well, until the next save. */
  lemma DueStaysDue(lastSaved: int, interval: int, step: int, later: int)
    requires Due(lastSaved, interval, step) && later >= step && later != 0
    ensures Due(lastSaved, interval, later)
  {
  }

  /** A step is never due again right after it was saved, as long as the interval is positive. */
  lemma NotDueAfterSave(interval: int, step: int)
    requires interval >= 1
    ensures !Due(step, interval, step)
  {
  }

  /** A directory whose checkpoints all parse still does after one more checkpoint and some deletions. */
  lemma AllParseAfterSave(before: set<string>, after: set<string>, step: int)
    requires AllParse(before) && after <= before + {CheckpointName(step)}
    ensures AllParse(after)
  {
    forall n <- Matching(after, IsCheckpointName) ensures StepKey(n).Some? {
      if n == CheckpointName(step) {
        StepParses(step);
      } else {
        assert n in Matching(before, IsCheckpointName);
      }
    }
  }

  class PeriodicCheckpointManager<T> {
    /** The latest-checkpoint manager this one extends. */
    const base: LatestCheckpointManager<T>
    const saveInterval: int
    /** The step of the last successful save, -1 before any. */
    var lastSavedStep: int

    /** Defaults: `save_interval = 1000`, `max_checkpoints = 5`. */
    constructor (existing: map<string, T>, saveInterval: int := 1000, maxCheckpoints: int := 5)
      ensures fresh(base)
      ensures base.files == existing && base.maxCheckpoints == maxCheckpoints && base.latestPath == None
      ensures this.saveInterval == saveInterval && lastSavedStep == -1
    {
      base := new LatestCheckpointManager(existing, maxCheckpoints);
      this.saveInterval := saveInterval;
      lastSavedStep := -1;
    }

    /** `should_save`. */
    predicate ShouldSave(step: int)
      reads this
    {
      Due(lastSavedStep, saveInterval, step)
    }

    /**
     * `save`: the inherited save, after which the step is remembered when the returned path
     * is non-empty. The directory only gains the new checkpoint, and loses the cleaned-up ones.
     */
    method Save(state: T, step: int, saveOk: bool) returns (path: string, ghost listing: seq<string>)
      modifies this, base
      ensures var written := old(base.files)[CheckpointName(step) := state];
        && (path != "" <==> saveOk && AllParse(written.Keys))
        && (path != "" ==> path == CheckpointName(step))
        && (!saveOk ==> base.files == old(base.files) && base.latestPath == old(base.latestPath))
        && (saveOk ==> base.latestPath == Some(CheckpointName(step)))
        && (saveOk && path == "" ==> base.files == written)
        && (path != "" ==> IsListing(listing, written.Keys, IsCheckpointName, StepKey))
        && (path != "" ==> base.files == written - Removed(listing, base.maxCheckpoints))
      ensures base.files.Keys <= old(base.files).Keys + {CheckpointName(step)}
      ensures lastSavedStep == if path != "" then step else old(lastSavedStep)
    {
      path, listing := base.Save(state, step, saveOk);
      if path != "" {
        lastSavedStep := step;
      }
    }

    /**
     * `save_if_needed`: saves only when `should_save` holds, and reports true exactly when
     * that save returned a path; the remembered step changes only then.
     */
    method SaveIfNeeded(state: T, step: int, saveOk: bool) returns (saved: bool, ghost listing: seq<string>)
      modifies this, base
      ensures saved <==>
        old(ShouldSave(step)) && saveOk && AllParse(old(base.files)[CheckpointName(step) := state].Keys)
      ensures saved ==> step != 0 && step - old(lastSavedStep) >= saveInterval
      ensures lastSavedStep == if saved then step else old(lastSavedStep)
      ensures !old(ShouldSave(step)) ==> base.files == old(base.files) && base.latestPath == old(base.latestPath)
      ensures old(ShouldSave(step)) && !saveOk ==> base.files == old(base.files) && base.latestPath == old(base.latestPath)
      ensures old(ShouldSave(step)) && saveOk && !saved ==>
        base.files == old(base.files)[CheckpointName(step) := state] && base.latestPath == Some(CheckpointName(step))
      ensures saved ==> var written := old(base.files)[CheckpointName(step) := state];
        && IsListing(listing, written.Keys, IsCheckpointName, StepKey)
        && base.files == written - Removed(listing, base.maxCheckpoints)
        && base.latestPath == Some(CheckpointName(step))
      ensures base.files.Keys <= old(base.files).Keys + {CheckpointName(step)}
    {
      listing := [];
      if ShouldSave(step) {
        var path;
        path, listing := Save(state, step, saveOk);
        if path != "" {
          lastSavedStep := step;
          return true, listing;
        }
      }
      return false, listing;
    }
  }

  /**
   * The interval schedule: with `save_interval = 500`, calling `save_if_needed` at steps
   * 0, 100, ..., 1400 on a directory whose checkpoints parse, with every save succeeding,
   * saves at steps 500 and 1000 and at no other step.
   */
  method IntervalSchedule(existing: map<string, int>) returns (savedAt: seq<int>)
    requires AllParse(existing.Keys)
    ensures savedAt == [500, 1000]
  {
    var m := new PeriodicCheckpointManager(existing, 500, 3);
    savedAt := [];
    for k := 0 to 15
      invariant m.saveInterval == 500
      invariant AllParse(m.base.files.Keys)
      invariant m.lastSavedStep == if k <= 5 then -1 else if k <= 10 then 500 else 1000
      invariant savedAt == if k <= 5 then [] else if k <= 10 then [500] else [500, 1000]
    {
      var step := 100 * k;
      ghost var before := m.base.files.Keys;
      ghost var written := m.base.files[CheckpointName(step) := step].Keys;
      AllParseAfterSave(before, written, step);
      var saved;
      ghost var listing;
      saved, listing := m.SaveIfNeeded(step, step, true);
      AllParseAfterSave(before, m.base.files.Keys, step);
      if saved {
        savedAt := savedAt + [step];
      }
    }
  }
}
