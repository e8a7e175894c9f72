/**
 * The diagnosis data manager: one FIFO of metrics per data-type name, kept to a retention
 * window. The clock is a parameter (`now`); the lock is left out (sequential semantics).
 */
module DataManager {
  import opened Wrappers
  import opened PyText
  import opened DiagnosisData

  /** A metric whose timestamp 0 ("not stamped") is replaced by `now`. */
  function Stamped(m: WorkerTrainingMetric, now: int): (r: WorkerTrainingMetric)
    ensures r.timestamp == if m.timestamp == 0 then now else m.timestamp
    ensures r.(timestamp := m.timestamp) == m
  {
    if m.timestamp == 0 then m.(timestamp := now) else m
  }

  /**
   * The partition left after eviction: the leading entries older than `cutoff` are
   * dropped, and dropping stops at the first entry that is not.
   */
  function Evicted(s: seq<WorkerTrainingMetric>, cutoff: int): (r: seq<WorkerTrainingMetric>)
    ensures |r| <= |s|
    ensures |r| > 0 ==> r[0].timestamp >= cutoff
  {
    if |s| > 0 && s[0].timestamp < cutoff then Evicted(s[1..], cutoff) else s
  }

  /** Eviction only drops a prefix: what is left is a suffix of the partition. */
  lemma {:induction false} EvictedIsSuffix(s: seq<WorkerTrainingMetric>, cutoff: int)
    ensures Evicted(s, cutoff) == s[|s| - |Evicted(s, cutoff)|..]
  {
    if |s| > 0 && s[0].timestamp < cutoff {
      EvictedIsSuffix(s[1..], cutoff);
      assert s[1..][|s| - 1 - |Evicted(s, cutoff)|..] == s[|s| - |Evicted(s, cutoff)|..];
    }
  }

  /** One pop: evicting from a partition whose first entry has expired is evicting from the rest. */
  lemma EvictStep(s: seq<WorkerTrainingMetric>, cutoff: int)
    requires |s| > 0 && s[0].timestamp < cutoff
    ensures Evicted(s[1..], cutoff) == Evicted(s, cutoff)
  {
  }

  /** Every entry eviction removes is older than the cutoff. */
  lemma {:induction false} EvictedDropsOnlyExpired(s: seq<WorkerTrainingMetric>, cutoff: int)
    ensures forall i :: 0 <= i < |s| - |Evicted(s, cutoff)| ==> s[i].timestamp < cutoff
  {
    if |s| > 0 && s[0].timestamp < cutoff {
      EvictedDropsOnlyExpired(s[1..], cutoff);
      assert forall i :: 1 <= i < |s| ==> s[i] == s[1..][i - 1];
    }
  }

  /** The three properties of `Evicted` determine it: any suffix that has them is `Evicted`. */
  lemma {:induction false} EvictedUnique(s: seq<WorkerTrainingMetric>, cutoff: int, k: nat)
    requires k <= |s|
    requires forall i :: 0 <= i < k ==> s[i].timestamp < cutoff
    requires k < |s| ==> s[k].timestamp >= cutoff
    ensures Evicted(s, cutoff) == s[k..]
    decreases k
  {
    if k > 0 {
      assert s[0].timestamp < cutoff;
      EvictedUnique(s[1..], cutoff, k - 1);
      assert s[1..][k - 1..] == s[k..];
    }
  }

  /**
   * Eviction stops at the first entry inside the window: every entry from there on
   * survives, in order, even entries older than the cutoff.
   */
  lemma {:induction false} EvictionStopsAtFirstFresh(s: seq<WorkerTrainingMetric>, cutoff: int, j: nat)
    requires j < |s| && s[j].timestamp >= cutoff
    ensures |Evicted(s, cutoff)| >= |s| - j
    ensures s[j..] == Evicted(s, cutoff)[|Evicted(s, cutoff)| - (|s| - j)..]
  {
    var r := Evicted(s, cutoff);
    EvictedDropsOnlyExpired(s, cutoff);
    EvictedIsSuffix(s, cutoff);
    assert s[j..] == s[|s| - |r|..][|r| - (|s| - j)..];
  }

  /** The `while`/`popleft` loop of `_clean_old_data` on one partition. */
  method PopExpired(partition: seq<WorkerTrainingMetric>, cutoff: int) returns (r: seq<WorkerTrainingMetric>)
    ensures r == Evicted(partition, cutoff)
  {
    r := partition;
    while |r| > 0 && r[0].timestamp < cutoff
      invariant Evicted(r, cutoff) == Evicted(partition, cutoff)
      decreases |r|
    {
      EvictStep(r, cutoff);
      r := r[1..];
    }
  }

  /** `d.node_id == node_id` for every entry when a node is given, no filter otherwise. */
  predicate OnNode(m: WorkerTrainingMetric, nodeId: Option<int>) {
    nodeId.None? || m.nodeId == nodeId.value
  }

  /** The entries of `s` on the given node, in their order in `s`. */
  function ForNode(s: seq<WorkerTrainingMetric>, nodeId: Option<int>): (r: seq<WorkerTrainingMetric>)
    ensures forall m <- r :: OnNode(m, nodeId) && m in s
    ensures forall m <- s :: OnNode(m, nodeId) ==> m in r
    ensures nodeId.None? ==> r == s
    ensures |r| <= |s|
  {
    if |s| == 0 then []
    else if OnNode(s[0], nodeId) then [s[0]] + ForNode(s[1..], nodeId)
    else ForNode(s[1..], nodeId)
  }

  /** Filtering an entry followed by more entries: the entry when it is on the node, then the rest filtered. */
  lemma ForNodeCons(m: WorkerTrainingMetric, t: seq<WorkerTrainingMetric>, nodeId: Option<int>)
    ensures ForNode([m] + t, nodeId) == (if OnNode(m, nodeId) then [m] else []) + ForNode(t, nodeId)
  {
    assert ([m] + t)[0] == m && ([m] + t)[1..] == t;
  }

  /** The filter works entry by entry: filtering a concatenation filters each part, in order. */
  lemma {:induction false} ForNodeConcat(a: seq<WorkerTrainingMetric>, b: seq<WorkerTrainingMetric>, nodeId: Option<int>)
    ensures ForNode(a + b, nodeId) == ForNode(a, nodeId) + ForNode(b, nodeId)
    decreases |a|
  {
    if |a| == 0 {
      assert a + b == b;
    } else {
      assert (a + b)[0] == a[0];
      assert (a + b)[1..] == a[1..] + b;
      ForNodeConcat(a[1..], b, nodeId);
      if OnNode(a[0], nodeId) {
        calc {
          ForNode(a + b, nodeId);
          [a[0]] + ForNode(a[1..] + b, nodeId);
          [a[0]] + (ForNode(a[1..], nodeId) + ForNode(b, nodeId));
          ([a[0]] + ForNode(a[1..], nodeId)) + ForNode(b, nodeId);
        }
      }
    }
  }

  /** One entry is kept exactly when it is on the node. */
  lemma ForNodeOne(m: WorkerTrainingMetric, nodeId: Option<int>)
    ensures ForNode([m], nodeId) == if OnNode(m, nodeId) then [m] else []
  {
    assert [m][1..] == [];
  }

  /** `s[i]` is on the node and no later entry of `s` is. */
  predicate LastOnNodeAt(s: seq<WorkerTrainingMetric>, i: int, nodeId: Option<int>) {
    0 <= i < |s| && OnNode(s[i], nodeId) && forall j :: i < j < |s| ==> !OnNode(s[j], nodeId)
  }

  /** The filter keeps nothing exactly when no entry is on the node. */
  lemma {:induction false} ForNodeEmpty(s: seq<WorkerTrainingMetric>, nodeId: Option<int>)
    ensures ForNode(s, nodeId) == [] <==> forall i :: 0 <= i < |s| ==> !OnNode(s[i], nodeId)
    decreases |s|
  {
    if s != [] {
      ForNodeEmpty(s[1..], nodeId);
      assert forall i :: 1 <= i < |s| ==> s[i] == s[1..][i - 1];
    }
  }

  /** The last entry the filter keeps is the last entry of `s` on the node. */
  lemma {:induction false} ForNodeLast(s: seq<WorkerTrainingMetric>, nodeId: Option<int>)
    ensures var f := ForNode(s, nodeId);
      f != [] ==> exists i :: LastOnNodeAt(s, i, nodeId) && f[|f| - 1] == s[i]
    decreases |s|
  {
    var f := ForNode(s, nodeId);
    if f != [] {
      var init, x := s[..|s| - 1], s[|s| - 1];
      assert s == init + [x];
      ForNodeConcat(init, [x], nodeId);
      ForNodeOne(x, nodeId);
      if OnNode(x, nodeId) {
        assert f == ForNode(init, nodeId) + [x];
        assert LastOnNodeAt(s, |s| - 1, nodeId);
      } else {
        assert f == ForNode(init, nodeId);
        ForNodeLast(init, nodeId);
        var i :| LastOnNodeAt(init, i, nodeId) && f[|f| - 1] == init[i];
        assert s[i] == init[i];
        forall j | i < j < |s| ensures !OnNode(s[j], nodeId) {
          if j < |init| {
            assert s[j] == init[j];
          }
        }
        assert LastOnNodeAt(s, i, nodeId);
      }
    }
  }

  class DiagnosisDataManager {
    /** How long, in seconds, metrics are retained (600 by default). */
    const retention: int
    /** Data-type name -> its metrics, oldest first. */
    var store: map<string, seq<WorkerTrainingMetric>>

    constructor (retention: int := 600)
      ensures this.retention == retention && store == map[]
    {
      this.retention := retention;
      store := map[];
    }

    /** The partition of a data type, empty when the type has never been written. */
    function Partition(dataType: string): seq<WorkerTrainingMetric>
      reads this
    {
      if dataType in store then store[dataType] else []
    }

    /**
     * `store_data`: creates the partition for an unseen type, stamps an unstamped metric
     * with the clock reading `stampNow`, appends it, and evicts the expired prefix of that
     * partition only, against the later clock reading `cleanNow` taken by `_clean_old_data`.
     */
    method StoreData(data: WorkerTrainingMetric, stampNow: int, cleanNow: int)
      modifies this
      ensures store == old(store)[data.dataType.Name() :=
        Evicted(old(Partition(data.dataType.Name())) + [Stamped(data, stampNow)], cleanNow - retention)]
    {
      var dataType := data.dataType.Name();
      if dataType !in store {
        store := store[dataType := []];
      }
      var stamped := Stamped(data, stampNow);
      store := store[dataType := store[dataType] + [stamped]];
      ghost var mid := store;
      assert mid == old(store)[dataType := mid[dataType]];
      CleanOldData(dataType, cleanNow);
      assert dataType in mid;
      assert store == mid[dataType := Evicted(mid[dataType], cleanNow - retention)];
      assert mid[dataType] == old(Partition(dataType)) + [stamped];
      assert store == old(store)[dataType := Evicted(old(Partition(dataType)) + [stamped], cleanNow - retention)];
    }

    /** `_clean_old_data`: pops entries older than `now - retention` from the front. */
    method CleanOldData(dataType: string, now: int)
      modifies this
      ensures dataType !in old(store) ==> store == old(store)
      ensures dataType in old(store) ==>
        store == old(store)[dataType := Evicted(old(store)[dataType], now - retention)]
    {
      if dataType in store {
        var partition := PopExpired(store[dataType], now - retention);
        store := store[dataType := partition];
      }
    }

    /**
     * `get_data`: [] for an unknown type; otherwise the entries on the node (all when no
     * node is given), of which `data_list[-limit:]` is returned.
     */
    function GetData(dataType: string, nodeId: Option<int> := None, limit: int := 100): (r: seq<WorkerTrainingMetric>)
      reads this
      ensures dataType !in store ==> r == []
      ensures forall m <- r :: OnNode(m, nodeId) && m in Partition(dataType)
      ensures var f := ForNode(Partition(dataType), nodeId);
        && (limit >= 1 ==> r == f[|f| - Min(limit, |f|)..])
        && (limit == 0 ==> r == f)
        && (limit < 0 ==> r == f[Min(-limit, |f|)..])
    {
      if dataType !in store then []
      else SliceFrom(ForNode(store[dataType], nodeId), -limit)
    }

    /** `get_latest_data`: the last entry on the node, None when there is none. */
    function GetLatestData(dataType: string, nodeId: Option<int> := None): (r: Option<WorkerTrainingMetric>)
      reads this
      ensures var f := ForNode(Partition(dataType), nodeId);
        && (r.None? <==> f == [])
        && (r.Some? ==> r.value == f[|f| - 1])
    {
      var l := GetData(dataType, nodeId, 1);
      if |l| > 0 then Some(l[0]) else None
    }

    /** `clear_data`: None drops every partition; a known type is emptied and keeps its key. */
    method ClearData(dataType: Option<string>)
      modifies this
      ensures dataType.None? ==> store == map[]
      ensures dataType.Some? && dataType.value in old(store) ==> store == old(store)[dataType.value := []]
      ensures dataType.Some? && dataType.value !in old(store) ==> store == old(store)
    {
      if dataType.None? {
        store := map[];
      } else if dataType.value in store {
        store := store[dataType.value := []];
      }
    }

    /** `get_data_count`: 0 for an unknown type, the partition's length otherwise. */
    function GetDataCount(dataType: string): (n: nat)
      reads this
      ensures n == |Partition(dataType)|
      ensures dataType !in store ==> n == 0
    {
      if dataType !in store then 0 else |store[dataType]|
    }
  }

  /** The latest entry is the last one of a query whose limit covers the whole partition. */
  lemma LatestIsLastOfQuery(dm: DiagnosisDataManager, dataType: string, nodeId: Option<int>, limit: int)
    requires limit >= |dm.Partition(dataType)|
    ensures var q := dm.GetData(dataType, nodeId, limit);
      dm.GetLatestData(dataType, nodeId) == if q == [] then None else Some(q[|q| - 1])
  {
    var f := ForNode(dm.Partition(dataType), nodeId);
    var q := dm.GetData(dataType, nodeId, limit);
    assert q == f by {
      if limit >= 1 {
        assert f[|f| - Min(limit, |f|)..] == f;
      }
    }
  }

  /**
   * `get_latest_data` gives the last entry of the partition that is on the node, and None
   * exactly when no entry of the partition is on the node.
   */
  lemma LatestIsLastOnNode(dm: DiagnosisDataManager, dataType: string, nodeId: Option<int>)
    ensures var s, r := dm.Partition(dataType), dm.GetLatestData(dataType, nodeId);
      && (r.None? <==> forall i :: 0 <= i < |s| ==> !OnNode(s[i], nodeId))
      && (r.Some? ==> exists i :: LastOnNodeAt(s, i, nodeId) && r.value == s[i])
  {
    ForNodeEmpty(dm.Partition(dataType), nodeId);
    ForNodeLast(dm.Partition(dataType), nodeId);
  }

  /** Eviction on the partitions the retention scenario produces, write by write. */
  lemma RetentionSteps(m1: WorkerTrainingMetric, m5: WorkerTrainingMetric,
                       m9: WorkerTrainingMetric, m20: WorkerTrainingMetric)
    requires m1.timestamp == 1 && m5.timestamp == 5 && m9.timestamp == 9 && m20.timestamp == 20
    ensures Evicted([] + [m1], 1 - 10) == [m1]
    ensures Evicted([m1] + [m5], 5 - 10) == [m1, m5]
    ensures Evicted([m1, m5] + [m9], 9 - 10) == [m1, m5, m9]
    ensures Evicted([m1, m5, m9] + [m20], 20 - 10) == [m20]
  {
    assert [] + [m1] == [m1];
    assert [m1] + [m5] == [m1, m5];
    EvictedUnique([m1, m5], -5, 0);
    assert [m1, m5] + [m9] == [m1, m5, m9];
    EvictedUnique([m1, m5, m9], -1, 0);
    var s4 := [m1, m5, m9] + [m20];
    assert s4[0] == m1 && s4[1] == m5 && s4[2] == m9 && s4[3] == m20;
    EvictedUnique(s4, 10, 3);
    assert s4[3..] == [m20];
  }

  /**
   * The retention scenario: with a 10-second window, metrics stamped 1, 5, 9 and 20 leave
   * only the one at 20 (the others expire on the write at 20).
   */
  method RetentionScenario(m: WorkerTrainingMetric) returns (dm: DiagnosisDataManager)
    ensures fresh(dm) && dm.retention == 10
    ensures dm.Partition(m.dataType.Name()) == [m.(timestamp := 20)]
  {
    var t := m.dataType.Name();
    var m1, m5, m9, m20 := m.(timestamp := 1), m.(timestamp := 5), m.(timestamp := 9), m.(timestamp := 20);
    RetentionSteps(m1, m5, m9, m20);
    dm := new DiagnosisDataManager(10);
    assert dm.Partition(t) == [];
    dm.StoreData(m1, 1, 1);
    assert Stamped(m1, 1) == m1 && dm.store[t] == [m1];
    dm.StoreData(m5, 5, 5);
    assert Stamped(m5, 5) == m5 && dm.store[t] == [m1, m5];
    dm.StoreData(m9, 9, 9);
    assert Stamped(m9, 9) == m9 && dm.store[t] == [m1, m5, m9];
    dm.StoreData(m20, 20, 20);
    assert Stamped(m20, 20) == m20 && dm.store[t] == [m20];
  }

  /** The query after the retention scenario returns the one surviving metric. */
  method RetentionQuery(m: WorkerTrainingMetric) returns (r: seq<WorkerTrainingMetric>)
    ensures r == [m.(timestamp := 20)]
  {
    var dm := RetentionScenario(m);
    r := dm.GetData(m.dataType.Name());
  }
}
