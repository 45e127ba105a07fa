/**
 The default in-memory driver. The process-wide `storage` dictionary is one
 Store object; every JobsDefaultDriver value refers to it, so any number of
 drivers read and write the same queues. Each operation runs as one atomic step
 (the lock around it is not modelled).
 */
module Driver {
  import opened Wrappers
  import opened JobStore

  /** The suffix that names a queue's companion "processing" queue. */
  const ProcessingSuffix: string := "-processing"

  /** The static dictionary shared by all driver values. */
  class Store<J> {
    var storage: Storage<J>

    /** At program start the dictionary holds no queues. */
    constructor ()
      ensures storage == map[]
    {
      storage := map[];
    }
  }

  class JobsDefaultDriver<J> {
    const store: Store<J>

    /** A new driver value works on the shared dictionary and leaves its contents as they are. */
    constructor (store: Store<J>)
      ensures this.store == store
    {
      this.store := store;
    }

    /** Pops the head of the list under `key`, or returns None for a missing or empty list. */
    method Get(key: string) returns (r: Option<J>)
      modifies store
      ensures (r, store.storage) == Popped(old(store.storage), key)
    {
      if key !in store.storage || store.storage[key] == [] {
        return None;
      }
      var l := store.storage[key];
      r := Some(l[0]);
      store.storage := store.storage[key := l[1..]];
    }

    /** Appends `job` to the list under `key`, creating the list on first use. */
    method Set(key: string, job: J)
      modifies store
      ensures store.storage == Appended(old(store.storage), key, job)
    {
      if key !in store.storage {
        store.storage := store.storage[key := []];
      }
      store.storage := store.storage[key := store.storage[key] + [job]];
    }

    /** Completion needs no clean-up in memory: nothing changes. */
    method Completed(key: string, job: J)
      ensures unchanged(store)
    {
    }

    /**
     Inserts `job` at index 1, right behind the current head. The insert traps
     on an empty list, so the caller must requeue only onto a non-empty list.
     */
    method Requeue(key: string, job: J)
      requires Lookup(store.storage, key) != []
      modifies store
      ensures Some(store.storage) == RequeuedAsWritten(old(store.storage), key, job)
      ensures store.storage == Requeued(old(store.storage), key, job)
    {
      var l := if key in store.storage then store.storage[key] else [];
      store.storage := store.storage[key := l[..1] + [job] + l[1..]];
      RequeuedAgreesWithSource(old(store.storage), key, job);
    }
  }

  /**
   A retry as the drivers serve it: two jobs are pushed through one driver value;
   a second driver value over the same store takes the first, which fails and is
   requeued, and a third job is pushed afterwards. The retried job comes back
   right after the job that was at the head, ahead of the later push.
   */
  method RetryScenario<J>(key: string, a: J, b: J, c: J) returns (served: seq<Option<J>>)
    ensures served == [Some(a), Some(b), Some(a), Some(c), None]
  {
    var store := new Store<J>();
    var producer := new JobsDefaultDriver<J>(store);
    producer.Set(key, a);
    producer.Set(key, b);
    var worker := new JobsDefaultDriver<J>(store);
    var first := worker.Get(key);
    worker.Requeue(key, a);
    producer.Set(key, c);
    var second := worker.Get(key);
    var third := worker.Get(key);
    var fourth := worker.Get(key);
    var fifth := worker.Get(key);
    served := [first, second, third, fourth, fifth];
  }

  /** The companion key: `key` followed by "-processing". */
  function ProcessingKey(key: string): (r: string)
    ensures |r| == |key| + |ProcessingSuffix|
    ensures r[..|key|] == key && r[|key|..] == ProcessingSuffix
  {
    key + ProcessingSuffix
  }

  /** Distinct queues have distinct processing keys. */
  lemma ProcessingKeyInjective(a: string, b: string)
    requires ProcessingKey(a) == ProcessingKey(b)
    ensures a == b
  {
    assert |a| == |b|;
    assert a == ProcessingKey(a)[..|a|];
  }

  /** A processing key is never the key it is derived from. */
  lemma ProcessingKeyDiffers(key: string)
    ensures ProcessingKey(key) != key
  {
  }

  /** Pushing onto a queue's processing key leaves the queue's own list untouched. */
  lemma ProcessingQueueSeparate<J>(s: Storage<J>, key: string, job: J)
    ensures Lookup(Appended(s, ProcessingKey(key), job), key) == Lookup(s, key)
  {
    ProcessingKeyDiffers(key);
    LookupOther(s, Appended(s, ProcessingKey(key), job), ProcessingKey(key), key);
  }
}
