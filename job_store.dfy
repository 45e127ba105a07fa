/**
 The in-memory job store of the default driver, as a value: a map from a queue
 key to the ordered list of job records stored under it. Each function below is
 the effect of one driver operation on that map; the class in module Driver
 applies them in place.
 */
module JobStore {
  import opened Wrappers

  /** Queue key -> ordered list of job records (the job record type J is opaque). */
  type Storage<J> = map<string, seq<J>>

  /** The list stored under `key`; a key never used reads as an empty list. */
  function Lookup<J>(s: Storage<J>, key: string): seq<J>
  {
    if key in s then s[key] else []
  }

  /** Every key other than `key` is bound in `t` exactly as in `s`. */
  ghost predicate OthersUnchanged<J>(s: Storage<J>, t: Storage<J>, key: string)
  {
    s - {key} == t - {key}
  }

  lemma LookupOther<J>(s: Storage<J>, t: Storage<J>, key: string, k: string)
    requires OthersUnchanged(s, t, key) && k != key
    ensures (k in t <==> k in s) && Lookup(t, k) == Lookup(s, k)
  {
    assert k in s <==> k in s - {key};
    assert k in t <==> k in t - {key};
    if k in s {
      assert (s - {key})[k] == s[k];
      assert (t - {key})[k] == t[k];
    }
  }

  /**
   Swift's `Array.insert(_:at:)`: defined for an index up to the count, the
   program traps (None) for any larger index.
   */
  function InsertAt<J>(l: seq<J>, job: J, i: nat): (r: Option<seq<J>>)
    ensures r.Some? <==> i <= |l|
    ensures r.Some? ==> |r.value| == |l| + 1 && r.value[i] == job
    ensures r.Some? ==> r.value[..i] == l[..i] && r.value[i + 1..] == l[i..]
  {
    if i <= |l| then Some(l[..i] + [job] + l[i..]) else None
  }

  /**
   `get`: a missing key or an empty list yields nothing and no change; otherwise
   the head is removed and returned.
   */
  function Popped<J>(s: Storage<J>, key: string): (r: (Option<J>, Storage<J>))
    ensures r.0.None? <==> Lookup(s, key) == []
    ensures r.0.None? ==> r.1 == s
    ensures r.0.Some? ==> key in r.1 && [r.0.value] + r.1[key] == Lookup(s, key)
    ensures r.0.Some? ==> |Lookup(r.1, key)| == |Lookup(s, key)| - 1
    ensures OthersUnchanged(s, r.1, key)
  {
    if key !in s || s[key] == [] then (None, s)
    else (Some(s[key][0]), s[key := s[key][1..]])
  }

  /** `set`: the job goes to the end of the key's list, created empty on first use. */
  function Appended<J>(s: Storage<J>, key: string, job: J): (t: Storage<J>)
    ensures key in t && |t[key]| == |Lookup(s, key)| + 1
    ensures t[key][..|Lookup(s, key)|] == Lookup(s, key) && t[key][|Lookup(s, key)|] == job
    ensures OthersUnchanged(s, t, key)
  {
    var l := if key in s then s[key] else [];
    s[key := l + [job]]
  }

  /**
   `requeue` as the source has it: create an empty list for a missing key, then
   insert at index 1. None stands for the trap of an out-of-range insert.
   */
  function RequeuedAsWritten<J>(s: Storage<J>, key: string, job: J): (r: Option<Storage<J>>)
    ensures r.Some? <==> Lookup(s, key) != []
    ensures r.Some? ==> key in r.value && r.value[key] == [Lookup(s, key)[0], job] + Lookup(s, key)[1..]
    ensures r.Some? ==> OthersUnchanged(s, r.value, key)
  {
    var l := if key in s then s[key] else [];
    match InsertAt(l, job, 1)
    case None => None
    case Some(l') =>
      assert l' == [l[0], job] + l[1..] by {
        assert l'[..1] == [l[0]];
      }
      Some(s[key := l'])
  }

  /**
   `requeue` corrected: insert at index 1, or at the end when the list is shorter
   than that, so that a requeue on a missing or empty key stores the job alone
   instead of trapping.
   */
  function Requeued<J>(s: Storage<J>, key: string, job: J): (t: Storage<J>)
    ensures key in t && |t[key]| == |Lookup(s, key)| + 1
    ensures Lookup(s, key) == [] ==> t[key] == [job]
    ensures Lookup(s, key) != [] ==> t[key] == [Lookup(s, key)[0], job] + Lookup(s, key)[1..]
    ensures multiset(t[key]) == multiset(Lookup(s, key)) + multiset{job}
    ensures OthersUnchanged(s, t, key)
  {
    var l := Lookup(s, key);
    if l == [] then s[key := [job]]
    else
      assert l == [l[0]] + l[1..];
      s[key := [l[0], job] + l[1..]]
  }

  /** Wherever the source does not trap, the corrected requeue does exactly what it does. */
  lemma RequeuedAgreesWithSource<J>(s: Storage<J>, key: string, job: J)
    ensures RequeuedAsWritten(s, key, job).Some? ==> RequeuedAsWritten(s, key, job) == Some(Requeued(s, key, job))
    ensures RequeuedAsWritten(s, key, job).None? ==> Popped(Requeued(s, key, job), key).0 == Some(job)
  {
    var t := Requeued(s, key, job);
    if RequeuedAsWritten(s, key, job).Some? {
      var u := RequeuedAsWritten(s, key, job).value;
      assert u.Keys == t.Keys by {
        LookupOthersAll(s, t, u, key);
      }
      assert forall k | k in u :: u[k] == t[k] by {
        forall k | k in u ensures u[k] == t[k] {
          if k != key {
            LookupOther(s, u, key, k);
            LookupOther(s, t, key, k);
          }
        }
      }
    }
  }

  lemma LookupOthersAll<J>(s: Storage<J>, t: Storage<J>, u: Storage<J>, key: string)
    requires OthersUnchanged(s, t, key) && OthersUnchanged(s, u, key)
    requires key in t && key in u
    ensures t.Keys == u.Keys
  {
    forall k ensures k in t <==> k in u {
      if k != key {
        LookupOther(s, t, key, k);
        LookupOther(s, u, key, k);
      }
    }
  }

  /** The source's requeue traps whenever the key has no list or an empty one. */
  lemma RequeueAsWrittenTrapsOnEmpty<J>(s: Storage<J>, key: string, job: J)
    requires key !in s || s[key] == []
    ensures RequeuedAsWritten(s, key, job) == None
  {
  }

  /**
   The common retry path traps as written: once `get` has taken the only job
   stored under a key, requeueing that job onto the key inserts into an empty list.
   */
  lemma RequeueOfOnlyJobTraps<J>(key: string, job: J)
    ensures var (taken, s) := Popped(Appended(map[], key, job), key);
            taken == Some(job) && RequeuedAsWritten(s, key, job) == None
  {
    var s0 := Appended(map[], key, job);
    assert s0[key] == [job];
  }

  /**
   After a requeue the next `get` returns the previous head and the one after it
   returns the requeued job; the rest of the old backlog follows.
   */
  lemma RequeuedJobServedSecond<J>(s: Storage<J>, key: string, job: J)
    requires Lookup(s, key) != []
    ensures var (first, t1) := Popped(Requeued(s, key, job), key);
            var (second, t2) := Popped(t1, key);
            first == Some(Lookup(s, key)[0]) && second == Some(job)
            && Lookup(t2, key) == Lookup(s, key)[1..]
  {
    var l := Lookup(s, key);
    var t := Requeued(s, key, job);
    assert t[key] == [l[0], job] + l[1..];
    var t1 := Popped(t, key).1;
    assert t1[key] == [job] + l[1..];
  }
}
