/**
 * Usage counters for models and credentials.
 *
 * Two maps from a name to its count, each raised by exactly one per recording.
 * As with Python's `defaultdict(int)`, a name that was never recorded reads as
 * zero. There is no reset and no decrement, so counts only grow. The manager is
 * a process-wide singleton: constructing it again hands back the same object
 * with its counters intact.
 */
module UsageStats {

  /** The count of `k` in `m`, zero when `k` is absent (`defaultdict(int)` reading). */
  function Count(m: map<string, nat>, k: string): nat {
    if k in m then m[k] else 0
  }

  /** `m[k] += 1` on a `defaultdict(int)`. */
  function Bump(m: map<string, nat>, k: string): (r: map<string, nat>)
    ensures Count(r, k) == Count(m, k) + 1
    ensures forall j | j != k :: Count(r, j) == Count(m, j)
    ensures r.Keys == m.Keys + {k}
  {
    m[k := Count(m, k) + 1]
  }

  /** Recording every name of `ks` in turn, first to last. */
  function BumpAll(m: map<string, nat>, ks: seq<string>): map<string, nat>
    decreases |ks|
  {
    if ks == [] then m else BumpAll(Bump(m, ks[0]), ks[1..])
  }

  /** After a run of recordings, each count has grown by the number of times its
      name was recorded, and by nothing else. */
  lemma {:induction false} BumpAllCount(m: map<string, nat>, ks: seq<string>, k: string)
    ensures Count(BumpAll(m, ks), k) == Count(m, k) + multiset(ks)[k]
    decreases |ks|
  {
    if ks != [] {
      BumpAllCount(Bump(m, ks[0]), ks[1..], k);
      assert ks == [ks[0]] + ks[1..];
      assert multiset(ks) == multiset([ks[0]]) + multiset(ks[1..]);
    }
  }

  /** Counts never decrease: a later snapshot dominates an earlier one key by key. */
  lemma BumpAllMonotone(m: map<string, nat>, ks: seq<string>, k: string)
    ensures Count(BumpAll(m, ks), k) >= Count(m, k)
    ensures k in ks ==> Count(BumpAll(m, ks), k) > Count(m, k)
  {
    BumpAllCount(m, ks, k);
  }

  /** What `get_stats` hands out: copies of the two maps. */
  datatype Stats = Stats(modelUsage: map<string, nat>, credentialUsage: map<string, nat>)

  class UsageStatsManager {
    var modelUsage: map<string, nat>
    var credentialUsage: map<string, nat>

    /** The first construction: both maps empty. */
    constructor ()
      ensures modelUsage == map[] && credentialUsage == map[]
    {
      modelUsage := map[];
      credentialUsage := map[];
    }

    /** `record_model_usage`: the model's count grows by one, nothing else changes. */
    method RecordModelUsage(modelName: string)
      modifies this
      ensures modelUsage == Bump(old(modelUsage), modelName)
      ensures credentialUsage == old(credentialUsage)
    {
      modelUsage := Bump(modelUsage, modelName);
    }

    /** `record_credential_usage`: the credential's count grows by one, nothing else changes. */
    method RecordCredentialUsage(credentialId: string)
      modifies this
      ensures credentialUsage == Bump(old(credentialUsage), credentialId)
      ensures modelUsage == old(modelUsage)
    {
      credentialUsage := Bump(credentialUsage, credentialId);
    }

    /** `get_stats`: a snapshot equal to the current maps; nothing is changed. */
    method GetStats() returns (s: Stats)
      ensures s.modelUsage == modelUsage && s.credentialUsage == credentialUsage
    {
      s := Stats(modelUsage, credentialUsage);
    }
  }

  /** The class attribute `_instance` behind `UsageStatsManager.__new__`. */
  class Singleton {
    var instance: UsageStatsManager?

    constructor ()
      ensures instance == null
    {
      instance := null;
    }

    /** `UsageStatsManager()`: the first call creates the manager with empty maps,
        every later call returns that same object untouched. */
    method New() returns (m: UsageStatsManager)
      modifies this
      ensures instance == m
      ensures old(instance) != null ==> m == old(instance) && unchanged(m)
      ensures old(instance) == null ==> fresh(m) && m.modelUsage == map[] && m.credentialUsage == map[]
    {
      if instance == null {
        instance := new UsageStatsManager();
      }
      m := instance;
    }
  }
}
