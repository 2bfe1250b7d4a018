/**
 * The asynchronous training group: per-device parameter shards with a versioned
 * history, dense or sparse pushes, and sparse fetches of the change since the
 * version a worker last saw.
 *
 * Each per-shard lambda body runs under that shard's mutex; here each is one
 * sequential method, and the thread-spawning loops are loops over the shards.
 */
module AsyncGroup {
  import opened VersionRing
  import opened Checkpoint
  import opened Wrappers
  import Partition

  /** The tensor operations the group calls but does not define. T is a dense
      tensor slice, S a sparse tensor. */
  datatype Ops<!T, !S> = Ops(
    /** `shardOpt_[idx]->update(param, grad)`: the updated parameters. */
    shardUpdate: (nat, T, T) -> T,
    /** `opt_->update(graphs_[0])` with a single graph, whose one shard is the whole
        parameter vector: the parameters after one step. */
    graphUpdate: (T, T) -> T,
    /** `updateMovingAverage(avg, params)`. */
    movingAverage: (T, T) -> T,
    /** `Element(_1 = _2 - _3, out, a, b)`: a - b. */
    subtract: (T, T) -> T,
    /** `Element(_1 += _2, a, b)`: a + b. */
    addTo: (T, T) -> T,
    /** `fetchDropper[worker][shard]->dropGraph(delta, sparse, rate)`. */
    dropDelta: (nat, nat, T, real) -> S,
    /** The worker's own dropper on its whole gradient. */
    dropGradient: (nat, seq<T>, real) -> S,
    /** `SparseTensor::subtensor(pos, size, idx)`. */
    sparseSlice: (S, int, nat, nat) -> S,
    /** `SparseTensor::toDense(out, offset)`: the new content of `out` from its old content. */
    toDense: (S, T, int) -> T)

  /** No entry of `local` is ahead of the matching entry of `global`. */
  ghost predicate Behind(local: seq<nat>, global: seq<nat>)
  {
    |local| == |global| && forall s :: 0 <= s < |local| ==> local[s] <= global[s]
  }

  /** Every worker is behind every shard. */
  ghost predicate AllBehind(localVersion: seq<seq<nat>>, globalVersion: seq<nat>)
  {
    forall w :: 0 <= w < |localVersion| ==> Behind(localVersion[w], globalVersion)
  }

  /** A shard advancing its version keeps every worker behind. */
  lemma AllBehindAdvance(localVersion: seq<seq<nat>>, globalVersion: seq<nat>, idx: nat, v: nat)
    requires AllBehind(localVersion, globalVersion) && idx < |globalVersion| && globalVersion[idx] <= v
    ensures AllBehind(localVersion, globalVersion[idx := v])
  {
  }

  /** A worker catching up with one shard stays behind every shard. */
  lemma AllBehindSync(localVersion: seq<seq<nat>>, globalVersion: seq<nat>, w: nat, idx: nat)
    requires AllBehind(localVersion, globalVersion) && w < |localVersion| && idx < |globalVersion|
    ensures AllBehind(localVersion[w := localVersion[w][idx := globalVersion[idx]]], globalVersion)
  {
  }

  /** Every shard's ring of slots matches its version log. */
  ghost predicate AllRings<T>(params: seq<seq<T>>, history: seq<seq<T>>, globalVersion: seq<nat>, h: nat)
  {
    |params| == |history| == |globalVersion| &&
    forall s :: 0 <= s < |params| ==> |params[s]| == h && RingHolds(params[s], history[s], globalVersion[s], h)
  }

  /** Replacing one shard's ring, log and version by ones that match keeps every ring valid. */
  lemma AllRingsUpdate<T>(params: seq<seq<T>>, history: seq<seq<T>>, globalVersion: seq<nat>, h: nat,
                          idx: nat, slots: seq<T>, hist: seq<T>, g: nat)
    requires AllRings(params, history, globalVersion, h) && idx < |params|
    requires |slots| == h && RingHolds(slots, hist, g, h)
    ensures AllRings(params[idx := slots], history[idx := hist], globalVersion[idx := g], h)
  {
  }

  /** The version counters of the first batch (`execute`, 407-412): one 0 per shard,
      and for every worker one 0 per shard. */
  method ZeroVersions(devices: nat) returns (globalVersion: seq<nat>, localVersion: seq<seq<nat>>)
    ensures |globalVersion| == devices && |localVersion| == devices
    ensures forall s :: 0 <= s < devices ==> globalVersion[s] == 0
    ensures forall w :: 0 <= w < devices ==> |localVersion[w]| == devices && forall s :: 0 <= s < devices ==> localVersion[w][s] == 0
    ensures forall w :: 0 <= w < devices ==> Behind(localVersion[w], globalVersion)
  {
    globalVersion, localVersion := [], [];
    for i := 0 to devices
      invariant |globalVersion| == i && |localVersion| == i
      invariant forall s :: 0 <= s < i ==> globalVersion[s] == 0
      invariant forall w :: 0 <= w < i ==> |localVersion[w]| == devices && forall s :: 0 <= s < devices ==> localVersion[w][s] == 0
    {
      globalVersion := globalVersion + [0];
      var row: seq<nat> := [];
      for j := 0 to devices
        invariant |row| == j && forall s :: 0 <= s < j ==> row[s] == 0
      {
        row := row + [0];
      }
      localVersion := localVersion + [row];
    }
  }

  /** A fresh ring of `h` slots, all holding version 0 of the shard. */
  function InitialRing<T>(value: T, h: nat): (r: seq<T>)
    requires h >= 1
    ensures |r| == h && RingHolds(r, [value], 0, h)
    ensures forall k :: 0 <= k < h ==> r[k] == value
  {
    RingStart(value, h);
    seq(h, k => value)
  }

  /** One fresh ring per shard, shard `s` starting from `graph0[s]`. */
  function InitialRings<T>(graph0: seq<T>, h: nat): (r: seq<seq<T>>)
    requires h >= 1
    ensures |r| == |graph0|
    ensures forall s :: 0 <= s < |graph0| ==> |r[s]| == h && RingHolds(r[s], [graph0[s]], 0, h)
    ensures forall s, k :: 0 <= s < |graph0| && 0 <= k < h ==> r[s][k] == graph0[s]
  {
    seq(|graph0|, s requires 0 <= s < |graph0| => InitialRing(graph0[s], h))
  }

  /** A version log per shard holding only version 0. */
  function Singletons<T>(graph0: seq<T>): (r: seq<seq<T>>)
    ensures |r| == |graph0| && forall s :: 0 <= s < |graph0| ==> r[s] == [graph0[s]]
  {
    seq(|graph0|, s requires 0 <= s < |graph0| => [graph0[s]])
  }

  /** `n` copies of `x`. */
  function Filled<X>(n: nat, x: X): (r: seq<X>)
    ensures |r| == n && forall i :: 0 <= i < n ==> r[i] == x
  {
    seq(n, i => x)
  }

  /** The slot `slots[s]` of every ring `rings[s]`. */
  function Gather<T>(rings: seq<seq<T>>, slots: seq<nat>): (r: seq<T>)
    requires |rings| == |slots| && forall s :: 0 <= s < |slots| ==> slots[s] < |rings[s]|
    ensures |r| == |slots| && forall s :: 0 <= s < |slots| ==> r[s] == rings[s][slots[s]]
  {
    seq(|slots|, s requires 0 <= s < |slots| => rings[s][slots[s]])
  }

  /** A shard's version log after one optimizer step to `value`: a new version, or,
      without versioning, the current version rewritten in place. */
  function Pushed<T>(hist: seq<T>, value: T, versioned: bool): (r: seq<T>)
    requires |hist| >= 1
    ensures |r| == |hist| + (if versioned then 1 else 0)
    ensures r[..|hist| - 1] == hist[..|hist| - 1] && r[|r| - 1] == value
    ensures versioned ==> r[..|hist|] == hist
  {
    if versioned then hist + [value] else hist[..|hist| - 1] + [value]
  }

  /** The batch's gradient, shard by shard, at the parameters `fetched`. */
  function TaskGradient<T>(devices: nat, gradientOf: (nat, seq<T>) -> T, fetched: seq<T>): (g: seq<T>)
    ensures |g| == devices && forall s :: 0 <= s < devices ==> g[s] == gradientOf(s, fetched)
  {
    seq(devices, s requires 0 <= s < devices => gradientOf(s as nat, fetched))
  }

  class AsyncGraphGroup<T, S> {
    const ops: Ops<T, S>
    /** `devices_.size()`: the number of devices, of graphs (workers) and of shards. */
    const devices: nat
    const dropRate: real
    const movingAvg: bool
    /** `history_size_`: the number of parameter slots per shard. */
    const historySize: nat

    /** `first_`: the shards are not set up yet. */
    var first: bool
    /** `shardSize_`. */
    var shardSize: nat
    /** `grads_[idx]->size()`. */
    var shardSizes: seq<nat>
    /** `globalVersionNumber[shard]`. */
    var globalVersion: seq<nat>
    /** `localVersionNumbers[worker][shard]`: the version the worker last synchronised against. */
    var localVersion: seq<seq<nat>>
    /** The ring of parameter versions, shard-major: `params[s][k]` is `params_[k][s]`. */
    var params: seq<seq<T>>
    /** `paramsAvg_[shard]`, empty unless the moving average is on. */
    var paramsAvg: seq<T>
    /** `grads_[shard]`: the shard's gradient buffer. */
    var grads: seq<T>
    /** `tmpDelta[worker]`, cut into shard slices. */
    var tmpDelta: seq<seq<T>>
    /** `graphs_[worker]->params()->vals()`, cut into shard slices. */
    var workerParams: seq<seq<T>>
    /** The thread-local batch counter `t` of each worker. */
    var steps: seq<nat>
    /** Every value each shard has taken: `history[s][v]` is version `v` of shard `s`. */
    ghost var history: seq<seq<T>>

    ghost predicate Valid()
      reads this`first, this`globalVersion, this`localVersion, this`params, this`history,
        this`tmpDelta, this`workerParams, this`shardSizes, this`grads, this`steps, this`paramsAvg
    {
      devices >= 1 && historySize >= 1 &&
      (first ==> globalVersion == [] && localVersion == [] && params == []) &&
      (!first ==> Ready())
    }

    /** The state once the first batch has set it up. */
    ghost predicate Ready()
      reads this`globalVersion, this`localVersion, this`params, this`history,
        this`tmpDelta, this`workerParams, this`shardSizes, this`grads, this`steps, this`paramsAvg
    {
      RingsValid() && WorkersValid() && BuffersValid()
    }

    /** Every shard's ring of slots matches its version log. */
    ghost predicate RingsValid()
      reads this`globalVersion, this`params, this`history
    {
      historySize >= 1 && |globalVersion| == devices && AllRings(params, history, globalVersion, historySize)
    }

    /** Every worker has a version, a delta buffer and a parameter slice per shard, and
        no worker is ahead of any shard. */
    ghost predicate WorkersValid()
      reads this`globalVersion, this`localVersion, this`tmpDelta, this`workerParams
    {
      |localVersion| == devices && |tmpDelta| == devices && |workerParams| == devices &&
      AllBehind(localVersion, globalVersion) &&
      forall w :: 0 <= w < devices ==> |tmpDelta[w]| == devices && |workerParams[w]| == devices
    }

    /** One size, gradient buffer and (with the moving average on) average per shard,
        one batch counter per worker. */
    ghost predicate BuffersValid()
      reads this`shardSizes, this`grads, this`steps, this`paramsAvg
    {
      |shardSizes| == devices && |grads| == devices && |steps| == devices &&
      |paramsAvg| == (if movingAvg then devices else 0)
    }

    /** The constructor: history sizing (587-591); no shard exists before the first batch. */
    constructor (ops: Ops<T, S>, devices: nat, dropRate: real, movingAvg: bool)
      requires devices >= 1
      ensures Valid() && first
      ensures this.ops == ops && this.devices == devices && this.dropRate == dropRate && this.movingAvg == movingAvg
      ensures historySize == HistorySize(dropRate, devices)
    {
      this.ops := ops;
      this.devices := devices;
      this.dropRate := dropRate;
      this.movingAvg := movingAvg;
      historySize := HistorySize(dropRate, devices);
      first := true;
      shardSize, shardSizes := 0, [];
      globalVersion, localVersion, params, paramsAvg := [], [], [], [];
      grads, tmpDelta, workerParams, steps := [], [], [], [];
      history := [];
    }

    /** The latest value of every shard. */
    function LatestParams(): (r: seq<T>)
      reads this
      requires Ready()
      ensures |r| == devices && forall s :: 0 <= s < devices ==> r[s] == history[s][globalVersion[s]]
    {
      var slots := DenseFetchSlots(globalVersion, historySize);
      Gather(params, slots)
    }

    /** What the worker task's dense fetch reads as written: one slot, chosen by the
        worker's own version counter, for every shard. */
    function DenseFetchSourceAsWritten(w: nat): (r: seq<T>)
      reads this
      requires Ready() && w < devices
      ensures |r| == devices
      ensures forall s :: 0 <= s < devices ==>
        r[s] == history[s][SlotVersion(globalVersion[s], globalVersion[w] % historySize, historySize)]
    {
      var slots := DenseFetchSlotsAsWritten(globalVersion, w, historySize);
      Gather(params, slots)
    }

    /** The first batch (`execute`, `first_` branch): versions start at 0, the vector
        is partitioned, every history slot of a shard receives graph 0's slice, and the
        moving average starts as slot 0. `built[w]` are graph `w`'s parameter slices
        after its first build and forward pass; `scratch` is the content of a freshly
        allocated buffer. */
    method InitFirstBatch(totalSize: nat, built: seq<seq<T>>, scratch: T)
      requires first && devices >= 1 && historySize >= 1
      requires |built| == devices && forall w :: 0 <= w < devices ==> |built[w]| == devices
      modifies this`first, this`shardSize, this`shardSizes, this`globalVersion, this`localVersion,
        this`params, this`paramsAvg, this`grads, this`tmpDelta, this`workerParams, this`steps, this`history
      ensures Valid() && !first
      ensures forall s :: 0 <= s < devices ==> globalVersion[s] == 0 && history[s] == [built[0][s]]
      ensures forall w, s :: 0 <= w < devices && 0 <= s < devices ==> localVersion[w][s] == 0
      ensures forall s, k :: 0 <= s < devices && 0 <= k < historySize ==> |params[s]| == historySize && params[s][k] == built[0][s]
      ensures shardSize == Partition.ShardSize(totalSize, devices)
      ensures shardSizes == Partition.Sizes(shardSize, totalSize, devices)
      ensures Partition.Sum(shardSizes) == totalSize
      ensures workerParams == built && paramsAvg == (if movingAvg then built[0] else [])
      ensures forall w :: 0 <= w < devices ==> steps[w] == 0
      ensures forall s :: 0 <= s < devices ==> grads[s] == scratch
    {
      var zeros, localZeros := ZeroVersions(devices);
      InitRings(zeros, built[0]);
      InitWorkers(localZeros, built, scratch);
      InitBuffers(totalSize, built[0], scratch);
      first := false;
    }

    /** Every shard starts at version 0 with all its slots holding graph 0's slice. */
    method InitRings(zeros: seq<nat>, graph0: seq<T>)
      requires historySize >= 1 && |graph0| == devices
      requires |zeros| == devices && forall s :: 0 <= s < devices ==> zeros[s] == 0
      modifies this`globalVersion, this`params, this`history
      ensures RingsValid() && globalVersion == zeros
      ensures forall s :: 0 <= s < devices ==> history[s] == [graph0[s]]
      ensures forall s, k :: 0 <= s < devices && 0 <= k < historySize ==> params[s][k] == graph0[s]
    {
      globalVersion, params, history := zeros, InitialRings(graph0, historySize), Singletons(graph0);
    }

    /** Every worker starts at version 0 of every shard, with its own built parameters
        and a fresh delta buffer per shard. */
    method InitWorkers(localZeros: seq<seq<nat>>, built: seq<seq<T>>, scratch: T)
      requires |globalVersion| == devices && |localZeros| == devices && |built| == devices
      requires forall w :: 0 <= w < devices ==> |built[w]| == devices && Behind(localZeros[w], globalVersion)
      modifies this`localVersion, this`tmpDelta, this`workerParams
      ensures WorkersValid() && localVersion == localZeros && workerParams == built
    {
      localVersion, tmpDelta, workerParams := localZeros, Filled(devices, Filled(devices, scratch)), built;
    }

    /** The partition of the first batch (419-427), with the shard size rounded up, the
        gradient buffers, the batch counters and the moving average. */
    method InitBuffers(totalSize: nat, graph0: seq<T>, scratch: T)
      requires devices >= 1 && |graph0| == devices
      modifies this`shardSize, this`shardSizes, this`grads, this`steps, this`paramsAvg
      ensures BuffersValid()
      ensures shardSize == Partition.ShardSize(totalSize, devices)
      ensures shardSizes == Partition.Sizes(shardSize, totalSize, devices)
      ensures Partition.Sum(shardSizes) == totalSize
      ensures paramsAvg == (if movingAvg then graph0 else [])
      ensures forall w :: 0 <= w < devices ==> steps[w] == 0
      ensures forall s :: 0 <= s < devices ==> grads[s] == scratch
    {
      shardSize := Partition.ShardSize(totalSize, devices);
      var offsets;
      shardSizes, offsets := Partition.ComputeShards(totalSize, devices, shardSize);
      Partition.CorrectedCoverage(totalSize, devices);
      grads, steps := Filled(devices, scratch), Filled(devices, 0);
      paramsAvg := if movingAvg then graph0 else [];
    }

    /** `fetchParams(oldParams, params)`: every shard slice of worker `w` is overwritten. */
    method FetchParams(w: nat, src: seq<T>)
      requires Valid() && !first && w < devices && |src| == devices
      modifies this`workerParams
      ensures Valid() && !first
      ensures workerParams == old(workerParams)[w := src]
    {
      var row := workerParams[w];
      for idx := 0 to devices
        invariant |row| == devices && forall s :: 0 <= s < idx ==> row[s] == src[s]
      {
        row := row[idx := src[idx]];
      }
      assert row == src;
      workerParams := workerParams[w := row];
    }

    /** The value the next optimizer step gives shard `idx`. */
    ghost function NextValue(idx: nat): T
      reads this
      requires Ready() && idx < devices
    {
      ops.shardUpdate(idx, history[idx][globalVersion[idx]], grads[idx])
    }

    /** The optimizer step on one shard, from its gradient buffer. Versioned: slot
        `(g + 1) % h` receives a copy of slot `g % h`, the counter advances, and the
        optimizer updates the new slot; unversioned (one slot): slot 0 is updated in
        place. No other slot and no other shard changes. */
    method ApplyUpdate(idx: nat, versioned: bool)
      requires Valid() && !first && idx < devices
      requires !versioned ==> historySize == 1
      modifies this`globalVersion, this`params, this`paramsAvg, this`history
      ensures Valid() && !first
      ensures globalVersion == old(globalVersion)[idx := old(globalVersion[idx]) + (if versioned then 1 else 0)]
      ensures history == old(history)[idx := Pushed(old(history[idx]), old(NextValue(idx)), versioned)]
      ensures params == old(params)[idx := old(params[idx])[globalVersion[idx] % historySize := old(NextValue(idx))]]
      ensures paramsAvg == if movingAvg then old(paramsAvg)[idx := ops.movingAverage(old(paramsAvg[idx]), old(NextValue(idx)))] else old(paramsAvg)
    {
      var g := globalVersion[idx];
      var slots := params[idx];
      RingLatest(slots, history[idx], g, historySize);
      var latest := 0;
      if versioned {
        var past := globalVersion[idx] % historySize;
        globalVersion := globalVersion[idx := globalVersion[idx] + 1];
        latest := globalVersion[idx] % historySize;
        slots := slots[latest := slots[past]];
      }
      var value := ops.shardUpdate(idx, slots[latest], grads[idx]);
      slots := slots[latest := value];
      assert slots == params[idx][latest := value];
      if versioned {
        RingPush(params[idx], history[idx], g, historySize, value);
      } else {
        RingRewrite(params[idx], history[idx], g, value);
      }
      AllRingsUpdate(params, history, old(globalVersion), historySize, idx, slots,
        Pushed(history[idx], value, versioned), globalVersion[idx]);
      AllBehindAdvance(localVersion, old(globalVersion), idx, globalVersion[idx]);
      params := params[idx := slots];
      if movingAvg {
        paramsAvg := paramsAvg[idx := ops.movingAverage(paramsAvg[idx], slots[latest])];
      }
      history := history[idx := Pushed(history[idx], value, versioned)];
    }

    /** The body of one `pushGradients` thread: copy the shard's slice of the gradient
        and apply it, versioned only when there are several history slots. */
    method PushShard(idx: nat, grad: T)
      requires Valid() && !first && idx < devices
      modifies this`grads, this`globalVersion, this`params, this`paramsAvg, this`history
      ensures Valid() && !first
      ensures grads == old(grads)[idx := grad]
      ensures globalVersion == old(globalVersion)[idx := old(globalVersion[idx]) + (if historySize > 1 then 1 else 0)]
      ensures var value := ops.shardUpdate(idx, old(history[idx][globalVersion[idx]]), grad);
        history == old(history)[idx := Pushed(old(history[idx]), value, historySize > 1)] &&
        paramsAvg == if movingAvg then old(paramsAvg)[idx := ops.movingAverage(old(paramsAvg[idx]), value)] else old(paramsAvg)
    {
      grads := grads[idx := grad];
      ApplyUpdate(idx, historySize > 1);
    }

    /** `pushGradients(newGrads)`: every shard takes one optimizer step with its slice. */
    method PushGradients(newGrads: seq<T>)
      requires Valid() && !first && |newGrads| == devices
      modifies this`grads, this`globalVersion, this`params, this`paramsAvg, this`history
      ensures Valid() && !first
      ensures grads == newGrads
      ensures forall s :: 0 <= s < devices ==>
        globalVersion[s] == old(globalVersion[s]) + (if historySize > 1 then 1 else 0) &&
        history[s] == Pushed(old(history[s]), ops.shardUpdate(s, old(history[s][globalVersion[s]]), newGrads[s]), historySize > 1)
      ensures movingAvg ==> forall s :: 0 <= s < devices ==>
        paramsAvg[s] == ops.movingAverage(old(paramsAvg[s]), ops.shardUpdate(s, old(history[s][globalVersion[s]]), newGrads[s]))
    {
      for idx := 0 to devices
        invariant Valid() && !first
        invariant forall s :: 0 <= s < idx ==> grads[s] == newGrads[s]
        invariant forall s :: idx <= s < devices ==> grads[s] == old(grads[s])
        invariant forall s :: 0 <= s < idx ==>
          globalVersion[s] == old(globalVersion[s]) + (if historySize > 1 then 1 else 0) &&
          history[s] == Pushed(old(history[s]), ops.shardUpdate(s, old(history[s][globalVersion[s]]), newGrads[s]), historySize > 1)
        invariant forall s :: idx <= s < devices ==> globalVersion[s] == old(globalVersion[s]) && history[s] == old(history[s])
        invariant movingAvg ==> forall s :: 0 <= s < idx ==>
          paramsAvg[s] == ops.movingAverage(old(paramsAvg[s]), ops.shardUpdate(s, old(history[s][globalVersion[s]]), newGrads[s]))
        invariant movingAvg ==> forall s :: idx <= s < devices ==> paramsAvg[s] == old(paramsAvg[s])
      {
        PushShard(idx, newGrads[idx]);
      }
    }

    /** The body of one `sparsePush` thread: cut the shard's part out of the sparse
        gradient, densify it into the shard's gradient buffer with index offset
        `-pos`, and apply it as a new version. */
    method SparsePushShard(idx: nat, pos: int, newGrads: S)
      requires Valid() && !first && idx < devices
      modifies this`grads, this`globalVersion, this`params, this`paramsAvg, this`history
      ensures Valid() && !first
      ensures var dense := ops.toDense(ops.sparseSlice(newGrads, pos, shardSizes[idx], idx), old(grads[idx]), -pos);
        var value := ops.shardUpdate(idx, old(history[idx][globalVersion[idx]]), dense);
        grads == old(grads)[idx := dense] &&
        globalVersion == old(globalVersion)[idx := old(globalVersion[idx]) + 1] &&
        history == old(history)[idx := old(history[idx]) + [value]] &&
        paramsAvg == if movingAvg then old(paramsAvg)[idx := ops.movingAverage(old(paramsAvg[idx]), value)] else old(paramsAvg)
    {
      var subGrad := ops.sparseSlice(newGrads, pos, shardSizes[idx], idx);
      grads := grads[idx := ops.toDense(subGrad, grads[idx], -pos)];
      ApplyUpdate(idx, true);
    }

    /** Shard `s`'s gradient buffer after densifying its part of `newGrads` over `prior`;
        the shard starts at element `s * shardSize`. */
    ghost function ShardGradient(newGrads: S, s: nat, prior: T): T
      reads this`shardSize, this`shardSizes
      requires s < |shardSizes|
    {
      var pos := s * shardSize;
      ops.toDense(ops.sparseSlice(newGrads, pos, shardSizes[s], s), prior, -pos)
    }

    /** `sparsePush(newGrads)`: with a single graph the global optimizer updates that
        graph directly (`graphGrads` is its dense gradient) and the shards are
        untouched; otherwise every shard takes one versioned step. */
    method SparsePush(newGrads: S, graphGrads: T)
      requires Valid() && !first
      modifies this`grads, this`globalVersion, this`params, this`paramsAvg, this`history, this`workerParams
      ensures Valid() && !first
      ensures devices < 2 ==>
        workerParams == old(workerParams)[0 := [ops.graphUpdate(old(workerParams[0][0]), graphGrads)]] &&
        globalVersion == old(globalVersion) && history == old(history) && params == old(params) &&
        paramsAvg == old(paramsAvg) && grads == old(grads)
      ensures devices >= 2 ==> (workerParams == old(workerParams) &&
        forall s :: 0 <= s < devices ==>
          globalVersion[s] == old(globalVersion[s]) + 1 &&
          history[s] == old(history[s]) + [ops.shardUpdate(s, old(history[s][globalVersion[s]]), grads[s])] &&
          grads[s] == ShardGradient(newGrads, s, old(grads[s])))
      ensures devices >= 2 && movingAvg ==> forall s :: 0 <= s < devices ==>
        paramsAvg[s] == ops.movingAverage(old(paramsAvg[s]), ops.shardUpdate(s, old(history[s][globalVersion[s]]), grads[s]))
      ensures !movingAvg ==> paramsAvg == old(paramsAvg)
    {
      if devices < 2 {
        workerParams := workerParams[0 := [ops.graphUpdate(workerParams[0][0], graphGrads)]];
      } else {
        SparsePushShards(newGrads);
      }
    }

    /** The loop of `sparsePush` over the shards. The running offset, advanced by one
        shard size per shard, is `idx * shardSize` for shard `idx`. */
    method SparsePushShards(newGrads: S)
      requires Valid() && !first
      modifies this`grads, this`globalVersion, this`params, this`paramsAvg, this`history
      ensures Valid() && !first
      ensures forall s :: 0 <= s < devices ==>
        globalVersion[s] == old(globalVersion[s]) + 1 &&
        history[s] == old(history[s]) + [ops.shardUpdate(s, old(history[s][globalVersion[s]]), grads[s])] &&
        grads[s] == ShardGradient(newGrads, s, old(grads[s]))
      ensures movingAvg ==> forall s :: 0 <= s < devices ==>
        paramsAvg[s] == ops.movingAverage(old(paramsAvg[s]), ops.shardUpdate(s, old(history[s][globalVersion[s]]), grads[s]))
      ensures !movingAvg ==> paramsAvg == old(paramsAvg)
    {
      ghost var gv0, hist0, grads0, avg0 := globalVersion, history, grads, paramsAvg;
      for idx := 0 to devices
        invariant Valid() && !first
        invariant forall s :: 0 <= s < idx ==>
          globalVersion[s] == gv0[s] + 1 &&
          history[s] == hist0[s] + [ops.shardUpdate(s, hist0[s][gv0[s]], grads[s])] &&
          grads[s] == ShardGradient(newGrads, s, grads0[s])
        invariant forall s :: idx <= s < devices ==>
          globalVersion[s] == gv0[s] && history[s] == hist0[s] && grads[s] == grads0[s]
        invariant movingAvg ==> forall s :: 0 <= s < idx ==>
          paramsAvg[s] == ops.movingAverage(avg0[s], ops.shardUpdate(s, hist0[s][gv0[s]], grads[s]))
        invariant movingAvg ==> forall s :: idx <= s < devices ==> paramsAvg[s] == avg0[s]
      {
        SparsePushShard(idx, idx * shardSize, newGrads);
      }
    }

    /** The change worker `w` fetches for shard `s`: the latest version minus the baseline. */
    ghost function FetchDelta(w: nat, s: nat): T
      reads this
      requires Ready() && w < devices && s < devices
    {
      var g := globalVersion[s];
      ops.subtract(history[s][g], history[s][BaselineVersion(g, localVersion[w][s], historySize)])
    }

    /** The dense form of the sparsified change, as written into `tmpDelta`. */
    ghost function FetchedDense(w: nat, s: nat): T
      reads this
      requires Ready() && w < devices && s < devices
    {
      ops.toDense(ops.dropDelta(w, s, FetchDelta(w, s), dropRate), tmpDelta[w][s], 0)
    }

    /** The body of one `sparseFetchParams` thread. Nothing happens when the worker
        already has the latest version; otherwise the sparsified delta against the
        baseline slot is added into the worker's slice and the worker adopts the
        shard's version. */
    method SparseFetchShard(w: nat, idx: nat)
      requires Valid() && !first && w < devices && idx < devices
      modifies this`tmpDelta, this`workerParams, this`localVersion
      ensures Valid() && !first
      ensures localVersion == old(localVersion)[w := old(localVersion[w])[idx := globalVersion[idx]]]
      ensures old(localVersion[w][idx]) == globalVersion[idx] ==>
        tmpDelta == old(tmpDelta) && workerParams == old(workerParams)
      ensures old(localVersion[w][idx]) != globalVersion[idx] ==>
        tmpDelta == old(tmpDelta)[w := old(tmpDelta[w])[idx := old(FetchedDense(w, idx))]] &&
        workerParams == old(workerParams)[w := old(workerParams[w])[idx := ops.addTo(old(workerParams[w][idx]), old(FetchedDense(w, idx)))]]
    {
      var g: nat, l: nat := globalVersion[idx], localVersion[w][idx];
      var latestVersion := g % historySize;
      var currVersion := l % historySize;
      if g - l >= historySize {
        currVersion := (1 + g) % historySize;
      }
      if g == l {
        assert localVersion[w][idx := g] == localVersion[w];
        assert localVersion[w := localVersion[w]] == localVersion;
        return;
      }
      assert currVersion == BaselineSlot(g, l, historySize);
      RingBaseline(params[idx], history[idx], g, l, historySize);
      RingLatest(params[idx], history[idx], g, historySize);
      var delta := ops.subtract(params[idx][latestVersion], params[idx][currVersion]);
      var sparseDelta := ops.dropDelta(w, idx, delta, dropRate);
      tmpDelta := tmpDelta[w := tmpDelta[w][idx := ops.toDense(sparseDelta, tmpDelta[w][idx], 0)]];
      workerParams := workerParams[w := workerParams[w][idx := ops.addTo(workerParams[w][idx], tmpDelta[w][idx])]];
      AllBehindSync(localVersion, globalVersion, w, idx);
      var row: seq<nat> := localVersion[w][idx := g];
      localVersion := localVersion[w := row];
    }

    /** `sparseFetchParams(oldParams, worker)`: a no-op with fewer than two graphs;
        otherwise every shard is fetched, and the worker ends at every shard's version. */
    method SparseFetchParams(w: nat)
      requires Valid() && !first && w < devices
      modifies this`tmpDelta, this`workerParams, this`localVersion
      ensures Valid() && !first
      ensures devices < 2 ==> localVersion == old(localVersion) && tmpDelta == old(tmpDelta) && workerParams == old(workerParams)
      ensures devices >= 2 ==> localVersion == old(localVersion)[w := globalVersion]
      ensures forall v :: 0 <= v < devices && v != w ==> workerParams[v] == old(workerParams[v]) && tmpDelta[v] == old(tmpDelta[v])
      ensures devices >= 2 ==> forall s :: 0 <= s < devices ==>
        if old(localVersion[w][s]) == globalVersion[s] then
          workerParams[w][s] == old(workerParams[w][s]) && tmpDelta[w][s] == old(tmpDelta[w][s])
        else
          tmpDelta[w][s] == old(FetchedDense(w, s)) &&
          workerParams[w][s] == ops.addTo(old(workerParams[w][s]), old(FetchedDense(w, s)))
    {
      if devices < 2 {
        return;
      }
      for idx := 0 to devices
        invariant Valid() && !first
        invariant forall v :: 0 <= v < devices && v != w ==>
          workerParams[v] == old(workerParams[v]) && tmpDelta[v] == old(tmpDelta[v]) && localVersion[v] == old(localVersion[v])
        invariant forall s :: 0 <= s < idx ==> (localVersion[w][s] == globalVersion[s] &&
          if old(localVersion[w][s]) == globalVersion[s] then
            workerParams[w][s] == old(workerParams[w][s]) && tmpDelta[w][s] == old(tmpDelta[w][s])
          else
            tmpDelta[w][s] == old(FetchedDense(w, s)) &&
            workerParams[w][s] == ops.addTo(old(workerParams[w][s]), old(FetchedDense(w, s))))
        invariant forall s :: idx <= s < devices ==>
          localVersion[w][s] == old(localVersion[w][s]) && workerParams[w][s] == old(workerParams[w][s]) && tmpDelta[w][s] == old(tmpDelta[w][s])
      {
        SparseFetchShard(w, idx);
      }
      assert localVersion[w] == globalVersion;
    }

    /** What one task of worker `w` does (527-546), from the state before it to the
        state after it. The fetch is dense on the worker's first batch or when no
        gradient dropping is done, and sparse otherwise. With several shards the
        shards are pushed; with one graph and dropping on, the global optimizer
        updates that graph instead. `gradientOf(s, p)` is shard `s`'s slice of this
        batch's gradient at parameters `p` (the forward and backward pass). */
    twostate predicate TaskEffect(w: nat, gradientOf: (nat, seq<T>) -> T)
      reads this
      requires old(Ready()) && Ready() && w < devices
    {
      steps == old(steps)[w := old(steps[w]) + 1] &&
      // Dense fetch of every shard's latest version, dense push of the gradient there.
      (dropRate == 0.0 ==>
        var fetched := old(LatestParams());
        workerParams == old(workerParams)[w := fetched] && localVersion == old(localVersion) && tmpDelta == old(tmpDelta) &&
        forall s :: 0 <= s < devices ==>
          globalVersion[s] == old(globalVersion[s]) + (if historySize > 1 then 1 else 0) &&
          history[s] == Pushed(old(history[s]), ops.shardUpdate(s, old(history[s][globalVersion[s]]), gradientOf(s, fetched)), historySize > 1)) &&
      // Dropping on, several shards: a dense fetch on the first batch, later a sparse
      // fetch adding the dropped change since the recorded version; then a sparse push
      // of the dropped gradient at the fetched parameters.
      (dropRate != 0.0 && devices >= 2 ==>
        (old(steps[w]) == 0 ==>
          workerParams == old(workerParams)[w := old(LatestParams())] && localVersion == old(localVersion) && tmpDelta == old(tmpDelta)) &&
        (old(steps[w]) > 0 ==>
          localVersion == old(localVersion)[w := old(globalVersion)] &&
          (forall v :: 0 <= v < devices && v != w ==> workerParams[v] == old(workerParams[v]) && tmpDelta[v] == old(tmpDelta[v])) &&
          forall s :: 0 <= s < devices ==>
            if old(localVersion[w][s]) == old(globalVersion[s]) then
              workerParams[w][s] == old(workerParams[w][s]) && tmpDelta[w][s] == old(tmpDelta[w][s])
            else
              tmpDelta[w][s] == old(FetchedDense(w, s)) &&
              workerParams[w][s] == ops.addTo(old(workerParams[w][s]), old(FetchedDense(w, s)))) &&
        var sparse := ops.dropGradient(w, TaskGradient(devices, gradientOf, workerParams[w]), dropRate);
        forall s :: 0 <= s < devices ==>
          globalVersion[s] == old(globalVersion[s]) + 1 &&
          history[s] == old(history[s]) + [ops.shardUpdate(s, old(history[s][globalVersion[s]]), grads[s])] &&
          grads[s] == ShardGradient(sparse, s, old(grads[s]))) &&
      // Dropping on, one graph: the sparse fetch is a no-op and the global optimizer
      // updates the graph.
      (dropRate != 0.0 && devices < 2 ==>
        var fetched := if old(steps[w]) > 0 then old(workerParams[w]) else old(LatestParams());
        workerParams == old(workerParams)[0 := [ops.graphUpdate(fetched[0], gradientOf(0, fetched))]] &&
        localVersion == old(localVersion) && tmpDelta == old(tmpDelta) &&
        globalVersion == old(globalVersion) && history == old(history)) &&
      // The moving average steps towards every shard's new value whenever shards are pushed.
      (movingAvg && !(dropRate != 0.0 && devices < 2) ==> forall s :: 0 <= s < devices ==>
        paramsAvg[s] == ops.movingAverage(old(paramsAvg[s]), history[s][|history[s]| - 1])) &&
      (!movingAvg || (dropRate != 0.0 && devices < 2) ==> paramsAvg == old(paramsAvg))
    }

    /** One batch of worker `w` (the task of `execute`, 527-546): fetch, then compute
        the gradient, then push it. */
    method RunTask(w: nat, gradientOf: (nat, seq<T>) -> T)
      requires Valid() && !first && w < devices
      modifies this`tmpDelta, this`workerParams, this`localVersion, this`grads, this`globalVersion,
        this`params, this`paramsAvg, this`history, this`steps
      ensures Valid() && !first
      ensures TaskEffect(w, gradientOf)
    {
      TaskFetch(w);
      TaskPush(w, gradientOf);
    }

    /** The fetch at the start of worker `w`'s task (530-533): sparse when dropping is
        on and the worker has run before, otherwise a dense copy of every shard's
        latest version that leaves the recorded versions as they are. */
    method TaskFetch(w: nat)
      requires Valid() && !first && w < devices
      modifies this`tmpDelta, this`workerParams, this`localVersion
      ensures Valid() && !first
      ensures !(dropRate != 0.0 && steps[w] > 0) ==>
        workerParams == old(workerParams)[w := old(LatestParams())] && localVersion == old(localVersion) && tmpDelta == old(tmpDelta)
      ensures dropRate != 0.0 && steps[w] > 0 && devices >= 2 ==>
        localVersion == old(localVersion)[w := globalVersion] &&
        (forall v :: 0 <= v < devices && v != w ==> workerParams[v] == old(workerParams[v]) && tmpDelta[v] == old(tmpDelta[v])) &&
        forall s :: 0 <= s < devices ==>
          if old(localVersion[w][s]) == globalVersion[s] then
            workerParams[w][s] == old(workerParams[w][s]) && tmpDelta[w][s] == old(tmpDelta[w][s])
          else
            tmpDelta[w][s] == old(FetchedDense(w, s)) &&
            workerParams[w][s] == ops.addTo(old(workerParams[w][s]), old(FetchedDense(w, s)))
      ensures dropRate != 0.0 && steps[w] > 0 && devices < 2 ==>
        workerParams == old(workerParams) && localVersion == old(localVersion) && tmpDelta == old(tmpDelta)
    {
      if dropRate != 0.0 && steps[w] > 0 {
        SparseFetchParams(w);
      } else {
        FetchParams(w, LatestParams());
      }
    }

    /** The rest of worker `w`'s task (535-546): the gradient at the parameters the
        worker holds, pushed densely or, with dropping on, sparsified. */
    method TaskPush(w: nat, gradientOf: (nat, seq<T>) -> T)
      requires Valid() && !first && w < devices
      modifies this`grads, this`globalVersion, this`params, this`paramsAvg, this`history, this`steps, this`workerParams
      ensures Valid() && !first
      ensures steps == old(steps)[w := old(steps[w]) + 1]
      ensures var gradient := TaskGradient(devices, gradientOf, old(workerParams[w]));
        (dropRate == 0.0 ==>
          workerParams == old(workerParams) &&
          forall s :: 0 <= s < devices ==>
            globalVersion[s] == old(globalVersion[s]) + (if historySize > 1 then 1 else 0) &&
            history[s] == Pushed(old(history[s]), ops.shardUpdate(s, old(history[s][globalVersion[s]]), gradient[s]), historySize > 1)) &&
        (dropRate != 0.0 && devices >= 2 ==>
          workerParams == old(workerParams) &&
          forall s :: 0 <= s < devices ==>
            globalVersion[s] == old(globalVersion[s]) + 1 &&
            history[s] == old(history[s]) + [ops.shardUpdate(s, old(history[s][globalVersion[s]]), grads[s])] &&
            grads[s] == ShardGradient(ops.dropGradient(w, gradient, dropRate), s, old(grads[s]))) &&
        (dropRate != 0.0 && devices < 2 ==>
          workerParams == old(workerParams)[0 := [ops.graphUpdate(old(workerParams[w][0]), gradient[0])]] &&
          globalVersion == old(globalVersion) && history == old(history))
      ensures movingAvg && !(dropRate != 0.0 && devices < 2) ==> forall s :: 0 <= s < devices ==>
        paramsAvg[s] == ops.movingAverage(old(paramsAvg[s]), history[s][|history[s]| - 1])
      ensures !movingAvg || (dropRate != 0.0 && devices < 2) ==> paramsAvg == old(paramsAvg)
    {
      var gradient := TaskGradient(devices, gradientOf, workerParams[w]);
      steps := steps[w := steps[w] + 1];
      if dropRate != 0.0 {
        var sparse := ops.dropGradient(w, gradient, dropRate);
        SparsePush(sparse, gradient[0]);
      } else {
        PushGradients(gradient);
      }
    }

    /** `execute(batch)` run by worker `w`: the first batch sets the shards up from
        the built graphs `built` and runs the task (`FirstTask`); every later batch
        has the effect of the task alone. */
    method Execute(w: nat, totalSize: nat, built: seq<seq<T>>, scratch: T, gradientOf: (nat, seq<T>) -> T)
      requires Valid() && w < devices
      requires |built| == devices && forall v :: 0 <= v < devices ==> |built[v]| == devices
      modifies this
      ensures Valid() && !first
      ensures old(first) ==> FirstTaskDone(w, totalSize, built, scratch, gradientOf)
      ensures !old(first) ==> shardSizes == old(shardSizes) && shardSize == old(shardSize) && TaskEffect(w, gradientOf)
    {
      if first {
        FirstTask(w, totalSize, built, scratch, gradientOf);
      } else {
        RunTask(w, gradientOf);
      }
    }

    /** The state after the first batch, run by worker `w`: the rounded-up shards,
        every worker still at version 0, worker `w` holding graph 0's parameters,
        every shard's log graph 0's slice followed by the task's step, and the
        averages one step from graph 0's slices. */
    ghost predicate FirstTaskDone(w: nat, totalSize: nat, built: seq<seq<T>>, scratch: T, gradientOf: (nat, seq<T>) -> T)
      reads this
      requires Ready() && w < devices
      requires |built| == devices && forall v :: 0 <= v < devices ==> |built[v]| == devices
    {
      shardSizes == Partition.Sizes(Partition.ShardSize(totalSize, devices), totalSize, devices) &&
      steps[w] == 1 &&
      (forall v, s :: 0 <= v < devices && 0 <= s < devices ==> localVersion[v][s] == 0) &&
      (dropRate == 0.0 || devices >= 2 ==> workerParams == built[w := built[0]]) &&
      (dropRate == 0.0 ==> forall s :: 0 <= s < devices ==>
        globalVersion[s] == (if historySize > 1 then 1 else 0) &&
        history[s] == Pushed([built[0][s]], ops.shardUpdate(s, built[0][s], gradientOf(s, built[0])), historySize > 1)) &&
      (dropRate != 0.0 && devices >= 2 ==>
        var sparse := ops.dropGradient(w, TaskGradient(devices, gradientOf, built[0]), dropRate);
        forall s :: 0 <= s < devices ==>
          globalVersion[s] == 1 &&
          history[s] == [built[0][s], ops.shardUpdate(s, built[0][s], grads[s])] &&
          grads[s] == ShardGradient(sparse, s, scratch)) &&
      (dropRate != 0.0 && devices < 2 ==>
        workerParams == [[ops.graphUpdate(built[0][0], gradientOf(0, built[0]))]] &&
        globalVersion == [0] && history == [[built[0][0]]]) &&
      (movingAvg && !(dropRate != 0.0 && devices < 2) ==> forall s :: 0 <= s < devices ==>
        paramsAvg[s] == ops.movingAverage(built[0][s], history[s][|history[s]| - 1])) &&
      (movingAvg && dropRate != 0.0 && devices < 2 ==> paramsAvg == built[0]) &&
      (!movingAvg ==> paramsAvg == [])
    }

    /** The first batch: set-up, then worker `w`'s task, which fetches densely. */
    method FirstTask(w: nat, totalSize: nat, built: seq<seq<T>>, scratch: T, gradientOf: (nat, seq<T>) -> T)
      requires Valid() && first && w < devices
      requires |built| == devices && forall v :: 0 <= v < devices ==> |built[v]| == devices
      modifies this`first, this`shardSize, this`shardSizes, this`globalVersion, this`localVersion,
        this`params, this`paramsAvg, this`grads, this`tmpDelta, this`workerParams, this`steps, this`history
      ensures Valid() && !first
      ensures FirstTaskDone(w, totalSize, built, scratch, gradientOf)
    {
      InitFirstBatch(totalSize, built, scratch);
      ghost var latest := LatestParams();
      assert latest == built[0];
      ghost var gv0, hist0, avg0 := globalVersion, history, paramsAvg;
      RunTask(w, gradientOf);
      if dropRate != 0.0 && devices >= 2 {
        assert workerParams[w] == built[0];
        forall s | 0 <= s < devices
          ensures history[s] == [built[0][s], ops.shardUpdate(s, built[0][s], grads[s])]
        {
          assert hist0[s] == [built[0][s]] && gv0[s] == 0;
        }
      }
      if movingAvg {
        assert avg0 == built[0];
      }
    }

    /** `save(final)` (618-620): the checkpoint actions for graph 0, from whatever
        parameters graph 0 holds. */
    method Save(overwrite: bool, final: bool, model: string, batches: nat)
      returns (r: Result<seq<SaveAction<nat>>, string>)
      requires Valid() && !first
      ensures r == SaveActions(0, overwrite, final, model, batches)
      ensures r.Success? ==> forall i :: 0 <= i < |r.value| && r.value[i].BuilderSave? ==> r.value[i].graph == 0
    {
      var graphs: seq<nat> := seq(devices, i requires 0 <= i < devices => i as nat);
      assert graphs[0] == 0;
      var idx := GraphIndex(graphs, 0);
      r := SaveActions(idx, overwrite, final, model, batches);
    }

    /** The save after a batch of worker `w` (557-559 with `save(graph, final)`,
        622-651): with the moving average on, the worker's graph first receives the
        averaged parameters; then the checkpoint actions for that worker's graph,
        with `final` at its default, false, as `this->save(graph)` passes it. */
    method SaveFrom(w: nat, overwrite: bool, model: string, batches: nat)
      returns (r: Result<seq<SaveAction<nat>>, string>)
      requires Valid() && !first && w < devices
      modifies this`workerParams
      ensures Valid() && !first
      ensures movingAvg ==> workerParams == old(workerParams)[w := paramsAvg]
      ensures !movingAvg ==> workerParams == old(workerParams)
      ensures r == SaveActions(w, overwrite, false, model, batches)
    {
      if movingAvg {
        FetchParams(w, paramsAvg);
      }
      var graphs: seq<nat> := seq(devices, i requires 0 <= i < devices => i as nat);
      assert graphs[w] == w;
      var idx := GraphIndex(graphs, w);
      r := SaveActions(idx, overwrite, false, model, batches);
    }
  }
}
