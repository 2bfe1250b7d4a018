/**
 * The arithmetic of the versioned parameter history of the asynchronous group.
 *
 * Each shard keeps `history_size_` parameter slots; version `g` of a shard lives in
 * slot `g % history_size_`. Every slot starts as a copy of version 0.
 */
module VersionRing {

  /** `history_size_`: 1, or `devices * 1.5` truncated to an int when the drop rate is positive. */
  function HistorySize(dropRate: real, devices: nat): (h: nat)
    ensures dropRate > 0.0 ==> h == devices + devices / 2
    ensures !(dropRate > 0.0) ==> h == 1
    ensures devices >= 1 ==> h >= 1
  {
    if dropRate > 0.0 then HalfAgain(devices) else 1
  }

  /** `floor(1.5 * d)`, computed on reals as the source does on doubles. */
  function HalfAgain(d: nat): (h: nat)
    ensures h == d + d / 2
  {
    var x := 1.5 * (d as real);
    assert x == (d + d / 2) as real + (if d % 2 == 1 then 0.5 else 0.0);
    x.Floor
  }

  /** With sparse synchronisation on two or more devices the ring holds more slots than there are workers. */
  lemma SparseHistoryExceedsWorkers(dropRate: real, devices: nat)
    requires dropRate > 0.0 && devices >= 2
    ensures HistorySize(dropRate, devices) > devices
    ensures HistorySize(dropRate, devices) >= 3
  {
  }

  lemma {:induction false} MulAtLeast(a: int, h: int)
    requires a >= 1 && h > 0
    ensures a * h >= h
  {
    if a > 1 {
      MulAtLeast(a - 1, h);
      assert a * h == (a - 1) * h + h;
    }
  }

  /** Quotient and remainder are determined by `x == q * h + t` with `0 <= t < h`. */
  lemma ModUnique(x: int, h: int, q: int, t: int)
    requires h > 0 && 0 <= t < h && x == q * h + t
    ensures x % h == t && x / h == q
  {
    var q', t' := x / h, x % h;
    assert x == q' * h + t';
    assert (q - q') * h == t' - t by {
      assert q * h - q' * h == (q - q') * h;
    }
    if q' < q {
      MulAtLeast(q - q', h);
    } else if q' > q {
      MulAtLeast(q' - q, h);
    }
  }

  /** The version whose value sits in slot `k` once the shard is at version `g`:
      the latest `v <= g` with `v % h == k`, or 0 when slot `k` was never written. */
  function SlotVersion(g: nat, k: nat, h: nat): (v: nat)
    requires h >= 1 && k < h
    ensures v <= g
  {
    var base := g - g % h;
    if k <= g % h then base + k
    else if g >= h then base - h + k
    else 0
  }

  /** Slot `(g % h)` holds the latest version. */
  lemma LatestSlot(g: nat, h: nat)
    requires h >= 1
    ensures SlotVersion(g, g % h, h) == g
  {
  }

  /** Every version still inside the window `(g - h, g]` sits in its own slot. */
  lemma RetainedSlot(g: nat, v: nat, h: nat)
    requires h >= 1 && v <= g && g - v < h
    ensures SlotVersion(g, v % h, h) == v
  {
    var r := g % h;
    var base := g - r;
    ModUnique(g, h, g / h, r);
    if v >= base {
      ModUnique(v, h, g / h, v - base);
    } else {
      assert base == (g / h) * h;
      assert g / h >= 1;
      MulAtLeast(g / h, h);
      ModUnique(v, h, g / h - 1, v - base + h);
    }
  }

  /** What a push does to the ring: slot `(g + 1) % h` receives version `g + 1`,
      every other slot keeps the version it held. */
  lemma {:induction false} PushSlot(g: nat, k: nat, h: nat)
    requires h >= 1 && k < h
    ensures SlotVersion(g + 1, k, h) == if k == (g + 1) % h then g + 1 else SlotVersion(g, k, h)
  {
    var q, r := g / h, g % h;
    assert g == q * h + r;
    if r + 1 < h {
      ModUnique(g + 1, h, q, r + 1);
      assert g + 1 - (g + 1) % h == g - r;
      assert g + 1 >= h <==> g >= h;
    } else {
      assert (q + 1) * h == q * h + h;
      ModUnique(g + 1, h, q + 1, 0);
      assert g + 1 - (g + 1) % h == g + 1;
    }
  }

  /** currVersion in sparseFetchParams: the slot the worker's last version lives in,
      or the oldest retained slot `(g + 1) % h` when the worker is `h` or more versions behind. */
  function BaselineSlot(g: nat, l: nat, h: nat): (k: nat)
    requires h >= 1
    ensures k < h
  {
    if g - l >= h then (g + 1) % h else l % h
  }

  /** The version the fetched delta is taken against. */
  function BaselineVersion(g: nat, l: nat, h: nat): nat
    requires h >= 1 && l <= g
  {
    if g - l >= h then g + 1 - h else l
  }

  /** The baseline slot holds the baseline version: the worker's own version when the
      staleness `g - l` is below `h`, otherwise the oldest retained one. */
  lemma BaselineSlotHoldsBaseline(g: nat, l: nat, h: nat)
    requires h >= 1 && l <= g
    ensures SlotVersion(g, BaselineSlot(g, l, h), h) == BaselineVersion(g, l, h)
    ensures l <= BaselineVersion(g, l, h) <= g && g - BaselineVersion(g, l, h) < h
    ensures BaselineVersion(g, l, h) == l <==> g - l < h
  {
    if g - l >= h {
      var v := g + 1 - h;
      RetainedSlot(g, v, h);
      ModUnique(g + 1, h, (g + 1) / h, (g + 1) % h);
      ModUnique(v, h, (g + 1) / h - 1, (g + 1) % h);
    } else {
      RetainedSlot(g, l, h);
    }
  }

  /** The ring of one shard: `slots[k]` holds version `SlotVersion(g, k, h)` of the
      shard, whose versions so far are `hist[0..g]`. */
  ghost predicate RingHolds<T>(slots: seq<T>, hist: seq<T>, g: nat, h: nat)
  {
    h >= 1 && |slots| == h && |hist| == g + 1 &&
    forall k {:trigger SlotVersion(g, k, h)} :: 0 <= k < h ==> slots[k] == hist[SlotVersion(g, k, h)]
  }

  /** A fresh ring: every slot is a copy of version 0. */
  lemma RingStart<T>(value: T, h: nat)
    requires h >= 1
    ensures RingHolds(seq(h, k => value), [value], 0, h)
  {
  }

  /** The latest slot holds the latest version. */
  lemma RingLatest<T>(slots: seq<T>, hist: seq<T>, g: nat, h: nat)
    requires RingHolds(slots, hist, g, h)
    ensures slots[g % h] == hist[g]
  {
    LatestSlot(g, h);
  }

  /** A versioned push: writing version `g + 1` into slot `(g + 1) % h` keeps the ring. */
  lemma RingPush<T>(slots: seq<T>, hist: seq<T>, g: nat, h: nat, value: T)
    requires RingHolds(slots, hist, g, h)
    ensures RingHolds(slots[(g + 1) % h := value], hist + [value], g + 1, h)
  {
    var slots', hist' := slots[(g + 1) % h := value], hist + [value];
    forall k | 0 <= k < h
      ensures slots'[k] == hist'[SlotVersion(g + 1, k, h)]
    {
      PushSlot(g, k, h);
    }
  }

  /** An unversioned update of a one-slot ring rewrites the current version. */
  lemma RingRewrite<T>(slots: seq<T>, hist: seq<T>, g: nat, value: T)
    requires RingHolds(slots, hist, g, 1)
    ensures RingHolds(slots[0 := value], hist[..g] + [value], g, 1)
  {
  }

  /** The baseline slot of a worker at version `l` holds the baseline version. */
  lemma RingBaseline<T>(slots: seq<T>, hist: seq<T>, g: nat, l: nat, h: nat)
    requires RingHolds(slots, hist, g, h) && l <= g
    ensures slots[BaselineSlot(g, l, h)] == hist[BaselineVersion(g, l, h)]
  {
    BaselineSlotHoldsBaseline(g, l, h);
  }

  /** The slot every shard is densely fetched from, when each shard uses its own version. */
  function DenseFetchSlots(globalVersion: seq<nat>, h: nat): (slots: seq<nat>)
    requires h >= 1
    ensures |slots| == |globalVersion|
    ensures forall s :: 0 <= s < |slots| ==> slots[s] < h && SlotVersion(globalVersion[s], slots[s], h) == globalVersion[s]
  {
    seq(|globalVersion|, s requires 0 <= s < |globalVersion| => LatestSlotOf(globalVersion[s], h))
  }

  function LatestSlotOf(g: nat, h: nat): (k: nat)
    requires h >= 1
    ensures k < h && SlotVersion(g, k, h) == g
  {
    LatestSlot(g, h);
    g % h
  }

  /** The slot the dense fetch of the worker task uses as written
      (`params_[globalVersionNumber[my_id] % history_size_]`): the worker's id picks
      the version counter, and that one slot is read for every shard. */
  function DenseFetchSlotsAsWritten(globalVersion: seq<nat>, worker: nat, h: nat): (slots: seq<nat>)
    requires h >= 1 && worker < |globalVersion|
    ensures |slots| == |globalVersion|
    ensures forall s :: 0 <= s < |slots| ==> slots[s] == globalVersion[worker] % h
  {
    seq(|globalVersion|, s => globalVersion[worker] % h)
  }

  /** As written, the fetch reads the slots the corrected one reads when the ring has
      one slot or when every shard is at the version of the worker's counter. */
  lemma DenseFetchAsWrittenLevel(globalVersion: seq<nat>, worker: nat, h: nat)
    requires h >= 1 && worker < |globalVersion|
    ensures (h == 1 || forall s :: 0 <= s < |globalVersion| ==> globalVersion[s] == globalVersion[worker]) ==>
      DenseFetchSlotsAsWritten(globalVersion, worker, h) == DenseFetchSlots(globalVersion, h)
  {
  }

  /** Two shards at versions 0 and 1 with three slots: worker 0 reads shard 1 from
      slot 0, which holds version 0 of that shard, not its latest version 1. */
  lemma DenseFetchAsWrittenIsStale()
    ensures SlotVersion(1, DenseFetchSlotsAsWritten([0, 1], 0, 3)[1], 3) == 0
    ensures DenseFetchSlots([0, 1], 3)[1] == 1
  {
    assert DenseFetchSlotsAsWritten([0, 1], 0, 3)[1] == 0;
  }

  /** One shard's slice in a worker after a dense fetch of version `g1` and a later
      sparse fetch at version `g2`, with nothing dropped, as written: the dense fetch
      (`fetchParams`, 234-250) copies version `g1` but leaves the worker's recorded
      version at `l`, so the sparse fetch (288-333) adds the change since `l` (or
      since the oldest retained version) on top of version `g1`. `hist[v]` is
      version `v` of the slice, on integers. */
  function TwoFetchesAsWritten(hist: seq<int>, l: nat, g1: nat, g2: nat, h: nat): (p: int)
    requires h >= 1 && l <= g1 <= g2 < |hist|
    ensures g2 - l < h ==> p == hist[g2] + (hist[g1] - hist[l])
  {
    hist[g1] + (hist[g2] - hist[BaselineVersion(g2, l, h)])
  }

  /** The same two fetches when the dense fetch records the version it copied, as
      the sparse fetch does at 333: within the retained window the worker ends at
      the latest version. */
  function TwoFetches(hist: seq<int>, g1: nat, g2: nat, h: nat): (p: int)
    requires h >= 1 && g1 <= g2 < |hist|
    ensures g2 - g1 < h ==> p == hist[g2]
  {
    hist[g1] + (hist[g2] - hist[BaselineVersion(g2, g1, h)])
  }

  /** Within the window, the fetches as written agree with the recorded ones exactly
      when the slice did not change between the recorded version `l` and `g1`. */
  lemma TwoFetchesAsWrittenAgrees(hist: seq<int>, l: nat, g1: nat, g2: nat, h: nat)
    requires h >= 1 && l <= g1 <= g2 < |hist| && g2 - l < h
    ensures TwoFetchesAsWritten(hist, l, g1, g2, h) == TwoFetches(hist, g1, g2, h) <==> hist[g1] == hist[l]
  {
  }

  /** A worker whose first dense fetch found version 1 while its recorded version is
      0, fetching sparsely at version 2 with three slots: the step from version 0 to 1
      is added twice, giving 3 instead of the latest value 2. */
  lemma TwoFetchesAsWrittenDoubleCounts()
    ensures TwoFetchesAsWritten([0, 1, 2], 0, 1, 2, 3) == 3
    ensures TwoFetches([0, 1, 2], 1, 2, 3) == 2
  {
  }
}
