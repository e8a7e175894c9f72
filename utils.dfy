/**
 * Environment lookups with defaults and the per-class singleton registry. The process
 * environment is a parameter (a map from variable name to value).
 */
module Utils {
  import opened Wrappers
  import opened PyInt
  import Constants

  type Env = map<string, string>

  /** `os.getenv(key, default)`. */
  function GetEnv(env: Env, key: string, default: string): string {
    if key in env then env[key] else default
  }

  /** `os.getenv(key)` with no default: None when the variable is unset. */
  function LookupEnv(env: Env, key: string): Option<string> {
    if key in env then Some(env[key]) else None
  }

  /** `int(os.getenv(key, str(default)))`, falling back to `default` when that raises ValueError. */
  function IntFromEnv(env: Env, key: string, default: int): (r: int)
    ensures key !in env ==> r == default
    ensures key in env && ParseInt(env[key]).None? ==> r == default
    ensures key in env && ParseInt(env[key]).Some? ==> r == ParseInt(env[key]).value
  {
    IntRoundTrip(default);
    match ParseInt(GetEnv(env, key, IntToString(default)))
    case Some(v) => v
    case None => default
  }

  /** `get_node_id()`: the node id, -1 when unset or not an integer. */
  function GetNodeId(env: Env): int {
    IntFromEnv(env, Constants.NODE_ID, -1)
  }

  /** `get_node_type()`: the node type, "worker" when unset. */
  function GetNodeType(env: Env): string {
    GetEnv(env, Constants.NODE_TYPE, "worker")
  }

  /** `get_node_rank()`: the node rank, -1 when unset or not an integer. */
  function GetNodeRank(env: Env): int {
    IntFromEnv(env, Constants.NODE_RANK, -1)
  }

  /** `get_local_rank()`: the local rank, 0 when unset or not an integer. */
  function GetLocalRank(env: Env): int {
    IntFromEnv(env, Constants.LOCAL_RANK, 0)
  }

  /** An integer written into the environment with `str` is read back unchanged. */
  lemma IntFromEnvRoundTrip(env: Env, key: string, default: int, n: int)
    ensures IntFromEnv(env[key := IntToString(n)], key, default) == n
  {
    IntRoundTrip(n);
  }

  /** The node getters read their own variable, and fall back to their defaults. */
  lemma NodeGettersDefaults(env: Env)
    requires Constants.NODE_ID !in env && Constants.NODE_TYPE !in env
    requires Constants.NODE_RANK !in env && Constants.LOCAL_RANK !in env
    ensures GetNodeId(env) == -1 && GetNodeType(env) == "worker"
    ensures GetNodeRank(env) == -1 && GetLocalRank(env) == 0
  {
  }

  lemma NodeGettersRoundTrip(env: Env, id: int, rank: int, localRank: int, nodeType: string)
    ensures GetNodeId(env[Constants.NODE_ID := IntToString(id)]) == id
    ensures GetNodeRank(env[Constants.NODE_RANK := IntToString(rank)]) == rank
    ensures GetLocalRank(env[Constants.LOCAL_RANK := IntToString(localRank)]) == localRank
    ensures GetNodeType(env[Constants.NODE_TYPE := nodeType]) == nodeType
  {
    IntRoundTrip(id);
    IntRoundTrip(rank);
    IntRoundTrip(localRank);
  }

  /**
   * The registry behind `Singleton.singleton_instance`: one instance per class, created on
   * the first request. `C` identifies a class; the lock is left out (sequential semantics).
   */
  class SingletonRegistry<C(==), I> {
    var instances: map<C, I>

    constructor ()
      ensures instances == map[]
    {
      instances := map[];
    }

    /**
     * The first call for `cls` stores and returns `created` (the object `cls(*args)` would
     * build); every later call returns the stored instance and ignores its arguments.
     */
    method SingletonInstance(cls: C, created: I) returns (inst: I)
      modifies this
      ensures cls in old(instances) ==> inst == old(instances)[cls] && instances == old(instances)
      ensures cls !in old(instances) ==> inst == created && instances == old(instances)[cls := created]
      ensures cls in instances && instances[cls] == inst
    {
      if cls !in instances {
        instances := instances[cls := created];
      }
      inst := instances[cls];
    }
  }

  /**
   * Two requests for one class return the first instance; a request for another class gets
   * its own instance.
   */
  method SingletonScenario() returns (first: int, second: int, other: int)
    ensures first == 42 && second == 42 && other == 7
  {
    var registry := new SingletonRegistry<string, int>();
    first := registry.SingletonInstance("TestClass", 42);
    second := registry.SingletonInstance("TestClass", 99);
    other := registry.SingletonInstance("OtherClass", 7);
  }
}
