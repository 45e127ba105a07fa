/**
 Sequences of driver operations run one after another (each one atomic), and
 what they deliver: nothing lost, nothing duplicated, and first-in first-out
 order on a key that no requeue touches.
 */
module Traces {
  import opened Wrappers
  import opened JobStore

  /** One call on the driver. */
  datatype Op<J> =
    | SetOp(key: string, job: J)
    | GetOp(key: string)
    | RequeueOp(key: string, job: J)
    | CompletedOp(key: string, job: J)

  /** The effect of one call: what it returns (only `get` returns a job) and the new store. */
  function Step<J>(s: Storage<J>, op: Op<J>): (Option<J>, Storage<J>)
  {
    match op
    case SetOp(key, job) => (None, Appended(s, key, job))
    case GetOp(key) => Popped(s, key)
    case RequeueOp(key, job) => (None, Requeued(s, key, job))
    case CompletedOp(_, _) => (None, s)
  }

  /** Runs `ops` in order from `s`: the value each call returned, and the final store. */
  function Run<J>(s: Storage<J>, ops: seq<Op<J>>): (r: (seq<Option<J>>, Storage<J>))
    ensures |r.0| == |ops|
    decreases |ops|
  {
    if ops == [] then ([], s)
    else
      var (out, s1) := Step(s, ops[0]);
      var (rest, s2) := Run(s1, ops[1..]);
      ([out] + rest, s2)
  }

  /** What one call delivers from `key`: the job a `get` on `key` returned, if any. */
  function StepDelivered<J>(op: Op<J>, out: Option<J>, key: string): seq<J>
  {
    if op == GetOp(key) && out.Some? then [out.value] else []
  }

  /** What one call admits to `key`: the job a `set` or `requeue` on `key` carries. */
  function StepAdmitted<J>(op: Op<J>, key: string): seq<J>
  {
    match op
    case SetOp(k, job) => if k == key then [job] else []
    case RequeueOp(k, job) => if k == key then [job] else []
    case _ => []
  }

  /** The jobs that the `get` calls on `key` returned, in the order they were returned. */
  function Delivered<J>(ops: seq<Op<J>>, outs: seq<Option<J>>, key: string): seq<J>
    requires |outs| == |ops|
  {
    if ops == [] then []
    else StepDelivered(ops[0], outs[0], key) + Delivered(ops[1..], outs[1..], key)
  }

  /** The jobs handed to `set` or `requeue` on `key`, in call order. */
  function Admitted<J>(ops: seq<Op<J>>, key: string): seq<J>
  {
    if ops == [] then []
    else StepAdmitted(ops[0], key) + Admitted(ops[1..], key)
  }

  /** No call in `ops` requeues onto `key`. */
  ghost predicate NoRequeueOn<J>(ops: seq<Op<J>>, key: string)
  {
    forall op | op in ops :: !(op.RequeueOp? && op.key == key)
  }

  lemma NoRequeueOnSplit<J>(ops: seq<Op<J>>, key: string)
    requires ops != [] && NoRequeueOn(ops, key)
    ensures !(ops[0].RequeueOp? && ops[0].key == key) && NoRequeueOn(ops[1..], key)
  {
    assert ops[0] in ops;
  }

  /** A call on another key neither delivers from nor admits to `key`, nor changes its list. */
  lemma StepOnOtherKey<J>(s: Storage<J>, op: Op<J>, key: string)
    requires op.key != key
    ensures Lookup(Step(s, op).1, key) == Lookup(s, key)
    ensures StepDelivered(op, Step(s, op).0, key) == [] && StepAdmitted(op, key) == []
  {
    match op
    case SetOp(k, job) => LookupOther(s, Step(s, op).1, k, key);
    case GetOp(k) => LookupOther(s, Step(s, op).1, k, key);
    case RequeueOp(k, job) => LookupOther(s, Step(s, op).1, k, key);
    case CompletedOp(_, _) =>
  }

  /** A call that is not a requeue onto `key` keeps the order of `key`'s jobs. */
  lemma StepPreservesOrder<J>(s: Storage<J>, op: Op<J>, key: string)
    requires !(op.RequeueOp? && op.key == key)
    ensures StepDelivered(op, Step(s, op).0, key) + Lookup(Step(s, op).1, key)
              == Lookup(s, key) + StepAdmitted(op, key)
  {
    var t := Step(s, op).1;
    var l := Lookup(s, key);
    if op.key != key {
      StepOnOtherKey(s, op, key);
    } else if op.SetOp? {
      assert t[key] == t[key][..|l|] + [t[key][|l|]];
    }
  }

  /** One step moves jobs between "delivered" and "stored" without losing or copying any. */
  lemma StepConserves<J>(s: Storage<J>, op: Op<J>, key: string)
    ensures multiset(StepDelivered(op, Step(s, op).0, key)) + multiset(Lookup(Step(s, op).1, key))
              == multiset(Lookup(s, key)) + multiset(StepAdmitted(op, key))
  {
    if !(op.RequeueOp? && op.key == key) {
      StepPreservesOrder(s, op, key);
      var d, t := StepDelivered(op, Step(s, op).0, key), Lookup(Step(s, op).1, key);
      assert multiset(d + t) == multiset(d) + multiset(t);
      assert multiset(Lookup(s, key) + StepAdmitted(op, key)) == multiset(Lookup(s, key)) + multiset(StepAdmitted(op, key));
    }
  }

  /** Unfolds one call of a run: its first step, then the run of the rest from the new store. */
  lemma RunUnfold<J>(s: Storage<J>, ops: seq<Op<J>>, key: string)
    requires ops != []
    ensures var s1 := Step(s, ops[0]).1;
            && Run(s, ops).1 == Run(s1, ops[1..]).1
            && Delivered(ops, Run(s, ops).0, key)
                 == StepDelivered(ops[0], Step(s, ops[0]).0, key) + Delivered(ops[1..], Run(s1, ops[1..]).0, key)
  {
    var s1 := Step(s, ops[0]).1;
    assert Run(s, ops).0 == [Step(s, ops[0]).0] + Run(s1, ops[1..]).0;
  }

  /**
   Over any run, the jobs delivered from `key` together with those still stored
   under it are exactly the jobs it started with plus those admitted to it: no
   job is lost and none is delivered twice.
   */
  lemma {:induction false} RunConserves<J>(s: Storage<J>, ops: seq<Op<J>>, key: string)
    ensures multiset(Delivered(ops, Run(s, ops).0, key)) + multiset(Lookup(Run(s, ops).1, key))
              == multiset(Lookup(s, key)) + multiset(Admitted(ops, key))
    decreases |ops|
  {
    if ops != [] {
      var s1 := Step(s, ops[0]).1;
      RunUnfold(s, ops, key);
      RunConserves(s1, ops[1..], key);
      StepConserves(s, ops[0], key);
      var d0, a0 := StepDelivered(ops[0], Step(s, ops[0]).0, key), StepAdmitted(ops[0], key);
      var d, a := Delivered(ops[1..], Run(s1, ops[1..]).0, key), Admitted(ops[1..], key);
      var l, l1, lt := Lookup(s, key), Lookup(s1, key), Lookup(Run(s1, ops[1..]).1, key);
      calc {
        multiset(d0 + d) + multiset(lt);
        multiset(d0) + (multiset(d) + multiset(lt));
        multiset(d0) + (multiset(l1) + multiset(a));
        (multiset(d0) + multiset(l1)) + multiset(a);
        (multiset(l) + multiset(a0)) + multiset(a);
        multiset(l) + multiset(a0 + a);
      }
    }
  }

  /**
   FIFO: when nothing is requeued onto `key`, the jobs its `get` calls returned,
   followed by those still stored under it, are in order the jobs it started with
   followed by those pushed to it.
   */
  lemma {:induction false} RunPreservesOrder<J>(s: Storage<J>, ops: seq<Op<J>>, key: string)
    requires NoRequeueOn(ops, key)
    ensures Delivered(ops, Run(s, ops).0, key) + Lookup(Run(s, ops).1, key)
              == Lookup(s, key) + Admitted(ops, key)
    decreases |ops|
  {
    if ops != [] {
      var s1 := Step(s, ops[0]).1;
      var d0, a0 := StepDelivered(ops[0], Step(s, ops[0]).0, key), StepAdmitted(ops[0], key);
      var d, a := Delivered(ops[1..], Run(s1, ops[1..]).0, key), Admitted(ops[1..], key);
      var l, l1, lt := Lookup(s, key), Lookup(s1, key), Lookup(Run(s1, ops[1..]).1, key);
      assert d0 + l1 == l + a0 && d + lt == l1 + a by {
        NoRequeueOnSplit(ops, key);
        StepPreservesOrder(s, ops[0], key);
        RunPreservesOrder(s1, ops[1..], key);
      }
      RunUnfold(s, ops, key);
      ChainConcat(d0, d, lt, l, l1, a0, a);
    }
  }

  /** Splicing two "delivered + stored == stored + admitted" facts end to end. */
  lemma ChainConcat<J>(d0: seq<J>, d: seq<J>, lt: seq<J>, l: seq<J>, l1: seq<J>, a0: seq<J>, a: seq<J>)
    requires d0 + l1 == l + a0 && d + lt == l1 + a
    ensures (d0 + d) + lt == l + (a0 + a)
  {
    calc {
      (d0 + d) + lt;
      d0 + (d + lt);
      d0 + (l1 + a);
      (d0 + l1) + a;
      (l + a0) + a;
      l + (a0 + a);
    }
  }

  /** FIFO: with no requeue onto `key`, what its `get` calls return is a prefix of its stored-then-pushed jobs. */
  lemma DeliveredInPushOrder<J>(s: Storage<J>, ops: seq<Op<J>>, key: string)
    requires NoRequeueOn(ops, key)
    ensures Delivered(ops, Run(s, ops).0, key) <= Lookup(s, key) + Admitted(ops, key)
  {
    RunPreservesOrder(s, ops, key);
    var d := Delivered(ops, Run(s, ops).0, key);
    assert (d + Lookup(Run(s, ops).1, key))[..|d|] == d;
  }

  /** `set` of each job of `jobs` on `key`, in order. */
  function AppendedAll<J>(s: Storage<J>, key: string, jobs: seq<J>): (t: Storage<J>)
    decreases |jobs|
  {
    if jobs == [] then s
    else AppendedAll(Appended(s, key, jobs[0]), key, jobs[1..])
  }

  /** A sequence of `set` calls adds its jobs, in order, behind everything already stored. */
  lemma {:induction false} AppendedAllExtends<J>(s: Storage<J>, key: string, jobs: seq<J>)
    ensures Lookup(AppendedAll(s, key, jobs), key) == Lookup(s, key) + jobs
    decreases |jobs|
  {
    if jobs != [] {
      var s1 := Appended(s, key, jobs[0]);
      var n := |Lookup(s, key)|;
      assert Lookup(s1, key) == Lookup(s, key) + [jobs[0]] by {
        assert s1[key] == s1[key][..n] + [s1[key][n]];
      }
      AppendedAllExtends(s1, key, jobs[1..]);
      assert Lookup(s, key) + [jobs[0]] + jobs[1..] == Lookup(s, key) + jobs;
    }
  }

  /**
   A requeued job keeps its place right behind the head: jobs pushed after the
   requeue all queue up behind it and behind the old backlog.
   */
  lemma RequeuedAheadOfLaterSets<J>(s: Storage<J>, key: string, job: J, later: seq<J>)
    requires Lookup(s, key) != []
    ensures Lookup(AppendedAll(Requeued(s, key, job), key, later), key)
              == [Lookup(s, key)[0], job] + Lookup(s, key)[1..] + later
  {
    AppendedAllExtends(Requeued(s, key, job), key, later);
  }

  /**
   A requeued job keeps its lead over the backlog through any later run that does
   not requeue onto the key again, whatever gets, sets or calls on other keys it
   holds: the key's jobs come out as the old head, the requeued job, the old
   backlog, and then what was pushed afterwards.
   */
  lemma RequeuedServedBeforeLaterPushes<J>(s: Storage<J>, key: string, job: J, ops: seq<Op<J>>)
    requires Lookup(s, key) != [] && NoRequeueOn(ops, key)
    ensures var (outs, t) := Run(Requeued(s, key, job), ops);
            Delivered(ops, outs, key) + Lookup(t, key)
              == [Lookup(s, key)[0], job] + Lookup(s, key)[1..] + Admitted(ops, key)
  {
    RunPreservesOrder(Requeued(s, key, job), ops, key);
  }
}
