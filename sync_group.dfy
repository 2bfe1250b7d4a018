/**
 * The synchronous training group: one replica of the model per device. Batches are
 * collected until every replica has one. Then each replica computes a gradient on
 * its batch, replica 0 averages the gradients, takes one optimizer step and copies
 * its parameters to every other replica.
 *
 * The per-batch tasks run on a thread pool in the source; here they run one after
 * the other, batch `i` on replica `i % workers`.
 */
module SyncGroup {
  import opened Wrappers
  import opened Checkpoint

  /** The tensor operations the group calls but does not define. T is a tensor (one
      replica's parameters or gradient), B a batch. */
  datatype SyncOps<!T, !B> = SyncOps(
    /** Replica `w`'s parameters after `builder_->build(graph, batch)` and `forward()`
        on a graph that has none yet (the first build initializes them). */
    initial: (nat, B) -> T,
    /** `build`, `forward`, `backward` on a batch at the given parameters: the gradient. */
    gradient: (B, T) -> T,
    /** `Element(_1 += _2, grads, tempGrads)`. */
    add: (T, T) -> T,
    /** `Element(_1 /= denom, grads)`. */
    divide: (T, nat) -> T,
    /** `opt_->update(graphs_[0])`: the parameters after one step with the gradient. */
    update: (T, T) -> T)

  /** The parameters and gradients of every replica, and whether the replicas still
      have to be built. */
  datatype SyncState<T> = SyncState(first: bool, params: seq<T>, grads: seq<T>)

  /** `f(...f(f(acc, gs[0]), gs[1])..., gs[|gs| - 1])`. */
  function FoldLeft<T>(f: (T, T) -> T, acc: T, gs: seq<T>): T
  {
    if |gs| == 0 then acc else f(FoldLeft(f, acc, gs[..|gs| - 1]), gs[|gs| - 1])
  }

  /** Every replica holds replica 0's tensor. */
  function Distributed<T>(ts: seq<T>): (r: seq<T>)
    requires |ts| >= 1
    ensures |r| == |ts| && r[0] == ts[0]
    ensures forall k :: 0 <= k < |r| ==> r[k] == r[0]
  {
    seq(|ts|, k => ts[0])
  }

  /** Replica 0's gradient becomes the average of all replicas' gradients; with a
      single replica nothing changes. */
  function Accumulated<T, B>(ops: SyncOps<T, B>, gs: seq<T>): (r: seq<T>)
    requires |gs| >= 1
    ensures |r| == |gs| && r[1..] == gs[1..]
    ensures |gs| >= 2 ==> r[0] == ops.divide(FoldLeft(ops.add, gs[0], gs[1..]), |gs|)
    ensures |gs| < 2 ==> r == gs
  {
    if |gs| < 2 then gs else gs[0 := ops.divide(FoldLeft(ops.add, gs[0], gs[1..]), |gs|)]
  }

  /** The gradients after the tasks for `batches` ran, batch `i` on replica `i % n`. */
  function TaskGrads<T, B>(ops: SyncOps<T, B>, params: seq<T>, grads: seq<T>, batches: seq<B>): (r: seq<T>)
    requires |params| == |grads| >= 1
    ensures |r| == |grads|
    ensures forall k :: |batches| <= k < |grads| ==> r[k] == grads[k]
  {
    if |batches| == 0 then grads
    else
      var i := |batches| - 1;
      var g := TaskGrads(ops, params, grads, batches[..i]);
      g[i % |grads| := ops.gradient(batches[i], params[i % |grads|])]
  }

  /** Every replica's parameters after its first build on batch `b`. */
  function Built<T, B>(ops: SyncOps<T, B>, n: nat, b: B): (r: seq<T>)
    ensures |r| == n && forall w :: 0 <= w < n ==> r[w] == ops.initial(w, b)
  {
    seq(n, w requires 0 <= w < n => ops.initial(w as nat, b))
  }

  /** One `execute()`: on the first call every replica is built on the first batch and
      replica 0's parameters are copied to all; then the tasks, the averaging, the
      optimizer step on replica 0 and the copy to all. */
  function Step<T, B>(ops: SyncOps<T, B>, st: SyncState<T>, batches: seq<B>): (r: SyncState<T>)
    requires |st.params| == |st.grads| >= 1
    requires st.first ==> |batches| >= 1
    ensures |r.params| == |r.grads| == |st.params| && !r.first
  {
    var params := if st.first then Distributed(Built(ops, |st.params|, batches[0])) else st.params;
    var grads := Accumulated(ops, TaskGrads(ops, params, st.grads, batches));
    SyncState(false, Distributed(params[0 := ops.update(params[0], grads[0])]), grads)
  }

  /** After a step every replica holds the same parameters: replica 0's after one
      optimizer step with the averaged gradient. */
  lemma StepReplicasAgree<T, B>(ops: SyncOps<T, B>, st: SyncState<T>, batches: seq<B>)
    requires |st.params| == |st.grads| >= 1
    requires st.first ==> |batches| >= 1
    ensures var r := Step(ops, st, batches);
      var p0 := if st.first then ops.initial(0, batches[0]) else st.params[0];
      forall k :: 0 <= k < |r.params| ==> r.params[k] == ops.update(p0, r.grads[0])
  {
  }

  /** After the tasks of a prefix of batches, replica `k` holds the gradient of the
      last batch routed to it, or its old gradient when none was. */
  lemma {:induction false} TaskGradsRoute<T, B>(ops: SyncOps<T, B>, params: seq<T>, grads: seq<T>, batches: seq<B>, k: nat)
    requires |params| == |grads| >= 1 && k < |grads| && |batches| <= |grads|
    ensures k < |batches| ==> TaskGrads(ops, params, grads, batches)[k] == ops.gradient(batches[k], params[k])
    ensures k >= |batches| ==> TaskGrads(ops, params, grads, batches)[k] == grads[k]
    decreases |batches|
  {
    if |batches| > 0 {
      var i := |batches| - 1;
      TaskGradsRoute(ops, params, grads, batches[..i], k);
      ModSmall(i, |grads|);
      if k < i {
        assert batches[..i][k] == batches[k];
      }
    }
  }

  /** A batch index below the number of replicas is its own replica. */
  lemma ModSmall(i: nat, n: nat)
    requires i < n
    ensures i % n == i
  {
  }

  /** A full round gives every replica the gradient of its own batch. */
  lemma FullRoundGradients<T, B>(ops: SyncOps<T, B>, params: seq<T>, grads: seq<T>, batches: seq<B>)
    requires |params| == |grads| == |batches| >= 1
    ensures forall k :: 0 <= k < |grads| ==>
      TaskGrads(ops, params, grads, batches)[k] == ops.gradient(batches[k], params[k])
  {
    forall k | 0 <= k < |grads|
      ensures TaskGrads(ops, params, grads, batches)[k] == ops.gradient(batches[k], params[k])
    {
      TaskGradsRoute(ops, params, grads, batches, k);
    }
  }

  /** The sum of a sequence of numbers. */
  function Total(xs: seq<int>): int
  {
    if |xs| == 0 then 0 else Total(xs[..|xs| - 1]) + xs[|xs| - 1]
  }

  /** With numbers for tensors, the fold of additions is the plain sum. */
  lemma {:induction false} FoldAddTotal(acc: int, xs: seq<int>)
    ensures FoldLeft((a: int, b: int) => a + b, acc, xs) == acc + Total(xs)
    decreases |xs|
  {
    if |xs| > 0 {
      FoldAddTotal(acc, xs[..|xs| - 1]);
    }
  }

  /** The tensor operations on plain numbers. */
  function NumberOps<B>(gradient: (B, int) -> int): SyncOps<int, B>
  {
    SyncOps((w: nat, b: B) => 0, gradient, (a: int, b: int) => a + b, (a: int, n: nat) => if n == 0 then a else a / n,
      (p: int, g: int) => p - g)
  }

  /** With numbers for tensors, replica 0's accumulated gradient is the (floored) mean
      of all replicas' gradients. */
  lemma AccumulatedIsMean<B>(gradient: (B, int) -> int, gs: seq<int>)
    requires |gs| >= 2
    ensures Accumulated(NumberOps(gradient), gs)[0] == Total(gs) / |gs|
  {
    var ops := NumberOps(gradient);
    var sum := FoldLeft(ops.add, gs[0], gs[1..]);
    FoldAddTotal(gs[0], gs[1..]);
    TotalFront(gs);
    assert sum == Total(gs);
    assert Accumulated(ops, gs)[0] == ops.divide(sum, |gs|);
    assert ops.divide(sum, |gs|) == sum / |gs|;
  }

  /** The sum splits off its first element. */
  lemma {:induction false} TotalFront(xs: seq<int>)
    requires |xs| >= 1
    ensures Total(xs) == xs[0] + Total(xs[1..])
    decreases |xs|
  {
    if |xs| > 1 {
      TotalFront(xs[..|xs| - 1]);
      assert xs[..|xs| - 1][1..] == xs[1..][..|xs| - 2];
    } else {
      assert xs[..0] == [];
    }
  }

  /** `~SyncGraphGroup()` as written: `execute()` runs whatever is left, even when no
      batch is pending. With no batch on the very first call, `batches_[0]` does not
      exist. */
  function FinishAsWritten<T, B>(ops: SyncOps<T, B>, st: SyncState<T>, batches: seq<B>): (r: Result<SyncState<T>, string>)
    requires |st.params| == |st.grads| >= 1
    ensures r.Failure? <==> st.first && |batches| == 0
    ensures r.Success? ==> r.value == Step(ops, st, batches)
  {
    if st.first && |batches| == 0 then Failure("batches_[0] out of range") else Success(Step(ops, st, batches))
  }

  /** With no batch pending, the destructor as written still takes an optimizer step,
      with the gradients of the previous round: a replica at 10 with gradient 1 ends
      at 9. */
  lemma FinishAsWrittenStepsAgain()
    ensures var st := SyncState(false, [10], [1]);
      var r := FinishAsWritten(NumberOps((b: int, p: int) => 0), st, []);
      r.Success? && r.value.params == [9]
  {
    var st := SyncState(false, [10], [1]);
    assert TaskGrads(NumberOps((b: int, p: int) => 0), st.params, st.grads, []) == [1];
  }

  /** The destructor as intended: the pending batches, if any, are run as a last round;
      with none pending nothing changes. */
  function Flushed<T, B>(ops: SyncOps<T, B>, st: SyncState<T>, batches: seq<B>): (r: SyncState<T>)
    requires |st.params| == |st.grads| >= 1
    ensures |batches| == 0 ==> r == st
    ensures |batches| > 0 ==> r == Step(ops, st, batches)
  {
    if |batches| == 0 then st else Step(ops, st, batches)
  }

  class SyncGraphGroup<T, B> {
    const ops: SyncOps<T, B>
    /** `graphs_.size()`: the number of replicas. */
    const workers: nat
    /** `first_`. */
    var first: bool
    /** `graphs_[k]->params()->vals()`. */
    var params: seq<T>
    /** `graphs_[k]->params()->grads()`. */
    var grads: seq<T>
    /** `batches_`: the batches collected for the next round. */
    var batches: seq<B>

    /** Every replica has parameters and a gradient, fewer batches than replicas are
        pending, and once built all replicas agree. */
    ghost predicate Valid()
      reads this
    {
      workers >= 1 && |params| == workers && |grads| == workers && |batches| < workers &&
      (!first ==> forall k :: 0 <= k < workers ==> params[k] == params[0])
    }

    function State(): SyncState<T>
      reads this
    {
      SyncState(first, params, grads)
    }

    /** The constructor: `workers` replicas, none built. `params0` and `grads0` are the
        contents of the not yet built graphs. */
    constructor (ops: SyncOps<T, B>, workers: nat, params0: T, grads0: T)
      requires workers >= 1
      ensures Valid() && first && batches == [] && this.ops == ops && this.workers == workers
    {
      this.ops := ops;
      this.workers := workers;
      first := true;
      params := seq(workers, k => params0);
      grads := seq(workers, k => grads0);
      batches := [];
    }

    /** `update(batch)`: collect the batch; once there is one per replica, run a round. */
    method Update(batch: B)
      requires Valid()
      modifies this
      ensures Valid()
      ensures |old(batches)| + 1 < workers ==>
        batches == old(batches) + [batch] && State() == old(State())
      ensures |old(batches)| + 1 == workers ==>
        batches == [] && State() == Step(ops, old(State()), old(batches) + [batch])
    {
      batches := batches + [batch];
      if |batches| == workers {
        Execute();
      }
    }

    /** `execute()`: one round over the pending batches. */
    method Execute()
      requires workers >= 1 && |params| == workers && |grads| == workers && |batches| <= workers
      requires !first ==> forall k :: 0 <= k < workers ==> params[k] == params[0]
      requires first ==> |batches| >= 1
      modifies this`first, this`params, this`grads, this`batches
      ensures Valid() && batches == []
      ensures State() == Step(ops, old(State()), old(batches))
    {
      if first {
        BuildReplicas(batches[0]);
        DistributeParameters();
        first := false;
      }
      RunTasks();
      AccumulateGradients();
      params := params[0 := ops.update(params[0], grads[0])];
      DistributeParameters();
      batches := [];
      StepReplicasAgree(ops, old(State()), old(batches));
    }

    /** The first build of every replica on the first batch. */
    method BuildReplicas(b: B)
      requires |params| == workers
      modifies this`params
      ensures params == Built(ops, workers, b)
    {
      for w := 0 to workers
        invariant |params| == workers
        invariant forall k :: 0 <= k < w ==> params[k] == ops.initial(k, b)
      {
        params := params[w := ops.initial(w, b)];
      }
    }

    /** The destructor, as intended: a last round over the pending batches, if any. */
    method Finish()
      requires Valid()
      modifies this
      ensures Valid() && batches == []
      ensures State() == Flushed(ops, old(State()), old(batches))
    {
      if |batches| > 0 {
        Execute();
      }
    }

    /** The tasks of a round, batch `i` on replica `i % workers`. */
    method RunTasks()
      requires workers >= 1 && |params| == workers && |grads| == workers
      modifies this`grads
      ensures grads == TaskGrads(ops, params, old(grads), batches)
    {
      for i := 0 to |batches|
        invariant grads == TaskGrads(ops, params, old(grads), batches[..i])
      {
        assert batches[..i + 1][..i] == batches[..i];
        grads := grads[i % workers := ops.gradient(batches[i], params[i % workers])];
      }
      assert batches[..|batches|] == batches;
    }

    /** `accumulateGradients(graphs_[0], graphs_)`: replica 0's gradient becomes the
        sum of all gradients divided by the number of replicas. */
    method AccumulateGradients()
      requires workers >= 1 && |grads| == workers
      modifies this`grads
      ensures grads == Accumulated(ops, old(grads))
    {
      if workers < 2 {
        return;
      }
      for k := 1 to workers
        invariant |grads| == workers && forall j :: 1 <= j < workers ==> grads[j] == old(grads[j])
        invariant grads[0] == FoldLeft(ops.add, old(grads[0]), old(grads)[1..k])
      {
        assert old(grads)[1..k + 1][..k - 1] == old(grads)[1..k];
        grads := grads[0 := ops.add(grads[0], grads[k])];
      }
      assert old(grads)[1..workers] == old(grads)[1..];
      grads := grads[0 := ops.divide(grads[0], workers)];
      assert grads == old(grads)[0 := grads[0]];
    }

    /** `save(final)` (782-791): replica 0 is written to `model.npz`, or, without
        overwriting, to a file numbered by the batch count. */
    method Save(overwrite: bool, model: string, batches: nat) returns (action: SaveAction<nat>)
      ensures action.BuilderSave? && action.graph == 0 && !action.final
      ensures action.path == SyncSaveName(model, overwrite, batches)
    {
      var name := if overwrite then model + ".npz" else model + "." + NatToString(batches) + ".npz";
      action := BuilderSave(0, name, false);
    }

    /** `distributeParameters(graphs_[0], graphs_)`: every other replica receives replica
        0's parameters. */
    method DistributeParameters()
      requires workers >= 1 && |params| == workers
      modifies this`params
      ensures params == Distributed(old(params))
    {
      if workers < 2 {
        assert params == Distributed(params);
        return;
      }
      for k := 1 to workers
        invariant |params| == workers && params[0] == old(params[0])
        invariant forall j :: 0 <= j < k ==> params[j] == old(params[0])
        invariant forall j :: k <= j < workers ==> params[j] == old(params[j])
      {
        params := params[k := params[0]];
      }
    }
  }
}
