/** Staging names: the process-wide counter `unique` and the `model-<id>-<ns>` and
    `worker-<id>-<ns>` object names built from it (dataflow.go:74, 149-151). */
module Naming {
  import opened Strings

  /** The `<id>-<ns>` part shared by both names. */
  function Stamp(id: nat, ns: int): (r: string)
    ensures |r| > 0 && IsDigit(r[0])
  {
    NatToString(id) + "-" + IntToString(ns)
  }

  /** The name of the staged pipeline model for counter value `id` and timestamp `ns`. */
  function ModelName(id: nat, ns: int): (r: string)
    ensures "model-" <= r && |r| > 6 && IsDigit(r[6])
  {
    "model-" + Stamp(id, ns)
  }

  /** The name of the staged worker binary for counter value `id` and timestamp `ns`. */
  function WorkerName(id: nat, ns: int): (r: string)
    ensures "worker-" <= r && |r| > 7 && IsDigit(r[7])
  {
    "worker-" + Stamp(id, ns)
  }

  /** A model name is never a worker name, whatever the ids and timestamps. */
  lemma ModelNeverWorker(id1: nat, ns1: int, id2: nat, ns2: int)
    ensures ModelName(id1, ns1) != WorkerName(id2, ns2)
  {
    assert ModelName(id1, ns1)[0] == 'm' && WorkerName(id2, ns2)[0] == 'w';
  }

  /** Model names with different ids differ, whatever the timestamps; likewise worker names. */
  lemma NamesDistinctForDistinctIds(id1: nat, ns1: int, id2: nat, ns2: int)
    requires id1 != id2
    ensures ModelName(id1, ns1) != ModelName(id2, ns2)
    ensures WorkerName(id1, ns1) != WorkerName(id2, ns2)
  {
    var r1, r2 := IntToString(ns1), IntToString(ns2);
    if ModelName(id1, ns1) == ModelName(id2, ns2) || WorkerName(id1, ns1) == WorkerName(id2, ns2) {
      assert ModelName(id1, ns1)[6..] == Stamp(id1, ns1);
      assert ModelName(id2, ns2)[6..] == Stamp(id2, ns2);
      assert WorkerName(id1, ns1)[7..] == Stamp(id1, ns1);
      assert WorkerName(id2, ns2)[7..] == Stamp(id2, ns2);
      NumberFieldInjective(id1, id2, r1, r2);
    }
  }

  /** The counter behind `unique`: `atomic.AddInt32(&unique, 1)` becomes `Next`. */
  class Namer {
    var unique: nat

    constructor ()
      ensures unique == 0
    {
      unique := 0;
    }

    /** Increments the counter and returns its new value. */
    method Next() returns (id: nat)
      modifies this
      ensures unique == old(unique) + 1
      ensures id == unique
    {
      unique := unique + 1;
      id := unique;
    }
  }
}
