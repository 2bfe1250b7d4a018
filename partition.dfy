/**
 * Splitting the flat parameter vector of the asynchronous group into one
 * contiguous shard per device (AsyncGraphGroup::execute, first batch).
 *
 * The loop gives every device `min(shardSize_, remaining)` elements and
 * subtracts that from `remaining`; `pos` is the running offset.
 */
module Partition {

  /** Sum of a sequence of sizes. */
  function Sum(s: seq<nat>): nat
  {
    if s == [] then 0 else s[0] + Sum(s[1..])
  }

  lemma {:induction false} SumAppend(s: seq<nat>, x: nat)
    ensures Sum(s + [x]) == Sum(s) + x
  {
    if s != [] {
      assert (s + [x])[1..] == s[1..] + [x];
      SumAppend(s[1..], x);
    }
  }

  function Min(a: nat, b: nat): (m: nat)
    ensures m <= a && m <= b && (m == a || m == b)
  {
    if a <= b then a else b
  }

  /** The sizes handed to `d` devices when `remaining` elements are left and the shard size is `shardSize`. */
  function Sizes(shardSize: nat, remaining: nat, d: nat): (r: seq<nat>)
    ensures |r| == d
    ensures forall i :: 0 <= i < d ==> r[i] <= shardSize
    ensures d > 0 ==> r[0] == Min(shardSize, remaining)
  {
    if d == 0 then []
    else [Min(shardSize, remaining)] + Sizes(shardSize, remaining - Min(shardSize, remaining), d - 1)
  }

  /** Offsets of the shards: the running sum of the earlier sizes. */
  ghost predicate IsRunningSum(sizes: seq<nat>, offsets: seq<nat>)
  {
    |offsets| == |sizes| && forall i :: 0 <= i < |sizes| ==> offsets[i] == Sum(sizes[..i])
  }

  /** `shardSize_ = ceil(totalSize / devices_.size())` as written: the quotient is an
      integer division of two integers, so `ceil` receives an integer and changes nothing. */
  function ShardSizeAsWritten(totalSize: nat, devices: nat): (s: nat)
    requires devices >= 1
    ensures s * devices <= totalSize < (s + 1) * devices
  {
    totalSize / devices
  }

  /** The shard size the rounding up is evidently meant to produce. */
  function ShardSize(totalSize: nat, devices: nat): (s: nat)
    requires devices >= 1
    ensures totalSize <= s * devices < totalSize + devices
  {
    (totalSize + devices - 1) / devices
  }

  /** The partitioning loop. `sizes[i]` and `offsets[i]` are the `__size__` and `pos`
      of the i-th device. */
  method ComputeShards(totalSize: nat, devices: nat, shardSize: nat) returns (sizes: seq<nat>, offsets: seq<nat>)
    ensures sizes == Sizes(shardSize, totalSize, devices)
    ensures IsRunningSum(sizes, offsets)
    ensures forall i :: 0 <= i < |sizes| ==> sizes[i] <= shardSize
    ensures Sum(sizes) <= totalSize
  {
    var remaining := totalSize;
    var pos := 0;
    sizes, offsets := [], [];
    var i := 0;
    while i < devices
      invariant 0 <= i <= devices
      invariant |sizes| == i
      invariant sizes + Sizes(shardSize, remaining, devices - i) == Sizes(shardSize, totalSize, devices)
      invariant IsRunningSum(sizes, offsets)
      invariant pos == Sum(sizes) && remaining + pos == totalSize
    {
      var size := Min(shardSize, remaining);
      assert sizes[..i] == sizes;
      SumAppend(sizes, size);
      assert forall k :: 0 <= k <= i ==> (sizes + [size])[..k] == sizes[..k];
      offsets := offsets + [pos];
      assert Sizes(shardSize, remaining, devices - i) == [size] + Sizes(shardSize, remaining - size, devices - i - 1);
      sizes := sizes + [size];
      remaining := remaining - size;
      pos := pos + size;
      i := i + 1;
    }
  }

  /** The sizes sum to `min(remaining, d * shardSize)`. */
  lemma {:induction false} SumOfSizes(shardSize: nat, remaining: nat, d: nat)
    ensures Sum(Sizes(shardSize, remaining, d)) == Min(remaining, d * shardSize)
  {
    if d > 0 {
      SumOfSizes(shardSize, remaining - Min(shardSize, remaining), d - 1);
      assert d * shardSize == shardSize + (d - 1) * shardSize;
    }
  }

  /** When enough elements remain, every device receives exactly `shardSize`. */
  lemma {:induction false} SizesAllFull(shardSize: nat, remaining: nat, d: nat)
    requires d * shardSize <= remaining
    ensures forall i :: 0 <= i < d ==> Sizes(shardSize, remaining, d)[i] == shardSize
  {
    if d > 0 {
      assert d * shardSize == shardSize + (d - 1) * shardSize;
      SizesAllFull(shardSize, remaining - shardSize, d - 1);
    }
  }

  /** As written, all devices get `totalSize / D` elements and the shards cover the
      whole vector exactly when D divides `totalSize`. */
  lemma AsWrittenCoverage(totalSize: nat, devices: nat)
    requires devices >= 1
    ensures forall i :: 0 <= i < devices ==>
      Sizes(ShardSizeAsWritten(totalSize, devices), totalSize, devices)[i] == totalSize / devices
    ensures Sum(Sizes(ShardSizeAsWritten(totalSize, devices), totalSize, devices)) == devices * (totalSize / devices)
    ensures Sum(Sizes(ShardSizeAsWritten(totalSize, devices), totalSize, devices)) == totalSize
        <==> totalSize % devices == 0
  {
    var s := ShardSizeAsWritten(totalSize, devices);
    SizesAllFull(s, totalSize, devices);
    SumOfSizes(s, totalSize, devices);
    assert devices * s == s * devices;
  }

  /** Ten parameters on four devices: two parameters belong to no shard. */
  lemma AsWrittenLosesRemainder()
    ensures Sum(Sizes(ShardSizeAsWritten(10, 4), 10, 4)) == 8
  {
    AsWrittenCoverage(10, 4);
  }

  /** With the shard size rounded up, the shards cover the whole vector. */
  lemma CorrectedCoverage(totalSize: nat, devices: nat)
    requires devices >= 1
    ensures Sum(Sizes(ShardSize(totalSize, devices), totalSize, devices)) == totalSize
  {
    SumOfSizes(ShardSize(totalSize, devices), totalSize, devices);
  }

  /** One more shard moves the offset by one shard size. */
  lemma MulSucc(i: nat, n: nat)
    ensures (i + 1) * n == i * n + n
  {
  }
}
