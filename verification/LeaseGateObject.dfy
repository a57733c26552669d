/** The gate and its records as objects updated in place
    (src/scrapy_extension/backends/_generation.py, classes `GenerationRecord` and
    `GenerationLeaseGate`), each locked body tied to the functions of LeaseGate. */
module LeaseGateObject {
  import opened Options
  import L = LeaseGate

  class GenerationRecord<T> {
    const generation: nat
    const value: T
    var accepting: bool
    var activeLeases: nat
    var activeThreads: map<L.Thread, nat>
    var deferredFinalizers: seq<L.Finalizer>
    var finalizerRegistered: bool

    ghost function View(): L.Record
      reads this
    {
      L.Record(accepting, activeLeases, activeThreads, deferredFinalizers, finalizerRegistered)
    }

    constructor (generation: nat, value: T)
      ensures View() == L.NewRecord && this.generation == generation && this.value == value
    {
      this.generation, this.value := generation, value;
      accepting, activeLeases, activeThreads := true, 0, map[];
      deferredFinalizers, finalizerRegistered := [], false;
    }

    /** The entry of a lease. */
    method Take(t: L.Thread)
      modifies this
      ensures View() == L.Taken(old(View()), t)
    {
      activeLeases := activeLeases + 1;
      var held := if t in activeThreads then activeThreads[t] else 0;
      activeThreads := activeThreads[t := held + 1];
    }

    /** The exit of a lease: the finalizers to run once the lock is released, and whether
        the sleepers are notified, which is only when no lease is left. */
    method Return(t: L.Thread) returns (finalizers: seq<L.Finalizer>, notify: bool)
      modifies this
      ensures notify <==> activeLeases == 0
      ensures View() == L.Returned(old(View()), t)
      ensures finalizers == L.Flushed(old(View()))
    {
      if activeLeases > 0 {
        activeLeases := activeLeases - 1;
      }
      var owned := if t in activeThreads then activeThreads[t] else 0;
      if owned <= 1 {
        activeThreads := activeThreads - {t};
      } else {
        activeThreads := activeThreads[t := owned - 1];
      }
      finalizers := [];
      notify := false;
      if activeLeases == 0 {
        notify := true;
        finalizers := deferredFinalizers;
        deferredFinalizers := [];
      }
    }

    /** One look of `drain` at its guard: it sleeps on, or registers the finalizer and
        leaves. */
    method DrainLook(owned: nat, finalizer: Option<L.Finalizer>) returns (leave: bool, runNow: seq<L.Finalizer>)
      modifies this
      ensures leave <==> old(activeLeases) <= owned
      ensures View() == if leave then L.Registered(old(View()), finalizer) else old(View())
      ensures runNow == if leave then L.RunNow(old(View()), finalizer) else []
    {
      if activeLeases > owned { return false, []; }
      leave := true;
      runNow := Register(finalizer);
    }

    /** The end of a drain, past its wait: a finalizer to run at once, if any. */
    method Register(finalizer: Option<L.Finalizer>) returns (runNow: seq<L.Finalizer>)
      modifies this
      ensures View() == L.Registered(old(View()), finalizer)
      ensures runNow == L.RunNow(old(View()), finalizer)
    {
      runNow := [];
      if finalizer != None && !finalizerRegistered {
        finalizerRegistered := true;
        if activeLeases == 0 {
          runNow := [finalizer.value];
        } else {
          deferredFinalizers := deferredFinalizers + [finalizer.value];
        }
      }
    }
  }

  class GenerationLeaseGate<T> {
    var nextGeneration: nat
    var current: GenerationRecord?<T>
    ghost var published: seq<GenerationRecord<T>>

    /** The records carry the generations 1, 2, 3, ... in order of publication. */
    ghost predicate Valid()
      reads this, published
    {
      && |published| == nextGeneration
      && (forall i :: 0 <= i < |published| ==> published[i].generation == i + 1)
      && (current != null ==> 0 < current.generation <= nextGeneration && published[current.generation - 1] == current)
      && (forall i :: 0 <= i < |published| ==> (published[i].accepting <==> published[i] == current))
    }

    ghost function View(): L.Gate
      reads this, published
      requires Valid()
    {
      L.Gate(seq(|published|, i requires 0 <= i < |published| reads this, published => published[i].View()),
             if current == null then None else Some(current.generation - 1))
    }

    constructor ()
      ensures Valid() && published == [] && View() == L.Gate([], None)
    {
      nextGeneration, current, published := 0, null, [];
    }

    /** The sleepers are notified only when the record is new. */
    method Publish(value: T) returns (record: GenerationRecord<T>, notify: bool)
      requires Valid()
      modifies this
      ensures notify <==> |published| > |old(published)|
      ensures Valid() && old(published) <= published
      ensures current == record && record.accepting
      ensures |published| == |old(published)|
              || (fresh(record) && record.value == value && record.generation > |old(published)|)
      ensures View() == L.Publish(old(View())).0
    {
      if current != null && current.accepting {
        return current, false;
      }
      notify := true;
      nextGeneration := nextGeneration + 1;
      record := new GenerationRecord(nextGeneration, value);
      current := record;
      published := published + [record];
      assert View().records == L.Publish(old(View())).0.records;
    }

    /** The sleepers are notified only when there was a record to retire. */
    method Retire() returns (record: GenerationRecord?<T>, notify: bool)
      requires Valid()
      modifies this`current, current
      ensures notify <==> record != null
      ensures Valid() && published == old(published)
      ensures record == old(current) && current == null
      ensures View() == L.Retire(old(View())).0
    {
      record := current;
      notify := record != null;
      if record != null {
        record.accepting := false;
        current := null;
      }
      assert View().records == L.Retire(old(View())).0.records;
    }

    /** The entry of `lease`; null stands for `GenerationUnavailable`. */
    method Lease(t: L.Thread) returns (record: GenerationRecord?<T>)
      requires Valid()
      modifies current
      ensures Valid() && published == old(published) && current == old(current)
      ensures record == current && (record != null ==> record.accepting)
      ensures View() == L.Acquire(old(View()), t).0
    {
      if current == null || !current.accepting {
        return null;
      }
      current.Take(t);
      assert View().records == L.Acquire(old(View()), t).0.records;
      return current;
    }
  }
}
