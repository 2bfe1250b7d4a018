/**
 * Index bookkeeping of the hard-attention decoders: every target position attends
 * to exactly one source position, kept as a row index into the flattened source
 * context, where source word `t` of sentence `j` in a batch of `dimBatch`
 * sentences is row `t * dimBatch + j`.
 */
module HardAtt {
  import opened Wrappers
  import Partition
  import VersionRing

  /** The largest `size_t` value; attention indices are `size_t`. */
  const SizeMax: nat := 0xFFFF_FFFF_FFFF_FFFF

  /** The special-symbol set built by the decoder's constructor from the
      `special-vocab` option, empty when the option is absent. */
  function SpecialSymbols(specialVocab: Option<seq<nat>>): (s: set<nat>)
    ensures specialVocab.None? ==> s == {}
    ensures specialVocab.Some? ==> forall w :: w in s <==> w in specialVocab.value
  {
    match specialVocab
    case None => {}
    case Some(vocab) => set w | w in vocab
  }

  /** Gathering by beam selection: `selected[k]` is the index of hypothesis `selIdx[k]`. */
  method GatherIndices(indices: seq<nat>, selIdx: seq<nat>) returns (selected: seq<nat>)
    requires forall k :: 0 <= k < |selIdx| ==> selIdx[k] < |indices|
    ensures |selected| == |selIdx|
    ensures forall k :: 0 <= k < |selIdx| ==> selected[k] == indices[selIdx[k]]
  {
    selected := [];
    var k := 0;
    while k < |selIdx|
      invariant 0 <= k <= |selIdx|
      invariant |selected| == k
      invariant forall m :: 0 <= m < k ==> selected[m] == indices[selIdx[m]]
    {
      selected := selected + [indices[selIdx[k]]];
      k := k + 1;
    }
  }

  /** Every index lies inside a source sentence of `dimSrcWords` words. */
  predicate InSource(indices: seq<nat>, dimSrcWords: nat)
  {
    forall k :: 0 <= k < |indices| ==> indices[k] < dimSrcWords
  }

  /** One search step of a position whose emitted word is special: `++` on the
      `size_t` index, then clamped to the last source word `dimSrcWords - 1`
      (which as `size_t` is `SizeMax` when `dimSrcWords` is 0). */
  function Advance(x: nat, dimSrcWords: nat): (r: nat)
    ensures dimSrcWords >= 1 ==> r < dimSrcWords
    ensures x < SizeMax && x + 1 < dimSrcWords ==> r == x + 1
    ensures x < SizeMax && dimSrcWords >= 1 && x + 1 >= dimSrcWords ==> r == dimSrcWords - 1
    ensures dimSrcWords == 0 ==> r == SizeMax
  {
    var next := (x + 1) % (SizeMax + 1);
    if next >= dimSrcWords then
      (if dimSrcWords == 0 then SizeMax else dimSrcWords - 1)
    else next
  }

  /** Some emitted word is special. */
  predicate HasSpecial(embIdx: seq<nat>, specials: set<nat>)
  {
    exists i :: 0 <= i < |embIdx| && embIdx[i] in specials
  }

  /** The indices after the first `n` emitted words have been looked at. */
  function AdvancedUpTo(indices: seq<nat>, embIdx: seq<nat>, specials: set<nat>, dimSrcWords: nat, n: nat): seq<nat>
  {
    seq(|indices|, k requires 0 <= k < |indices| =>
      if k < n && k < |embIdx| && embIdx[k] in specials then Advance(indices[k], dimSrcWords) else indices[k])
  }

  /** The attention indices `selectEmbeddings` leaves behind: `[0]` for an empty
      selection, else each position that emitted a special word advances; reading
      the indices fails when they are empty and a special word was emitted. */
  function SelectedAttention(indices: seq<nat>, embIdx: seq<nat>, specials: set<nat>, dimSrcWords: nat): (r: Result<seq<nat>, string>)
    ensures |embIdx| == 0 ==> r == Success([0])
    ensures r.Failure? <==> |embIdx| > 0 && |indices| == 0 && HasSpecial(embIdx, specials)
    ensures r.Success? && |embIdx| > 0 ==> |r.value| == |indices|
  {
    if |embIdx| == 0 then Success([0])
    else if |indices| == 0 && HasSpecial(embIdx, specials) then Failure("Empty attention indices")
    else Success(AdvancedUpTo(indices, embIdx, specials, dimSrcWords, |embIdx|))
  }

  /** Positions whose emitted word is not special keep their index. */
  lemma SelectKeepsOrdinary(indices: seq<nat>, embIdx: seq<nat>, specials: set<nat>, dimSrcWords: nat, k: nat)
    requires |embIdx| > 0 && k < |indices|
    requires k >= |embIdx| || embIdx[k] !in specials
    ensures var r := SelectedAttention(indices, embIdx, specials, dimSrcWords);
      r.Success? && r.value[k] == indices[k]
  {
  }

  /** A position whose emitted word is special moves one source word on, and
      stops at the last source word. */
  lemma SelectAdvancesSpecial(indices: seq<nat>, embIdx: seq<nat>, specials: set<nat>, dimSrcWords: nat, k: nat)
    requires k < |indices| && k < |embIdx| && embIdx[k] in specials
    requires dimSrcWords >= 1 && indices[k] < SizeMax
    ensures var r := SelectedAttention(indices, embIdx, specials, dimSrcWords);
      r.Success? && r.value[k] < dimSrcWords &&
      r.value[k] == (if indices[k] + 1 < dimSrcWords then indices[k] + 1 else dimSrcWords - 1)
  {
  }

  /** Selection keeps every index inside the source sentence. */
  lemma SelectStaysInSource(indices: seq<nat>, embIdx: seq<nat>, specials: set<nat>, dimSrcWords: nat)
    requires dimSrcWords >= 1 && InSource(indices, dimSrcWords)
    ensures var r := SelectedAttention(indices, embIdx, specials, dimSrcWords);
      r.Success? ==> InSource(r.value, dimSrcWords)
  {
  }

  /** Inside the sentence an index never moves back and moves by at most one word. */
  lemma SelectMovesForward(indices: seq<nat>, embIdx: seq<nat>, specials: set<nat>, dimSrcWords: nat, k: nat)
    requires |embIdx| > 0 && k < |indices| && indices[k] < dimSrcWords <= SizeMax
    ensures var r := SelectedAttention(indices, embIdx, specials, dimSrcWords);
      r.Success? && indices[k] <= r.value[k] <= indices[k] + 1
  {
  }

  // ----- ground truth -----

  /** The word of sentence `j` at row `i` is inside the batch and special. */
  predicate IsSpecialAt(words: seq<nat>, dimBatch: nat, specials: set<nat>, i: nat, j: nat)
  {
    i * dimBatch + j < |words| && words[i * dimBatch + j] in specials
  }

  /** The number of special words of sentence `j` in rows `0 .. n-1`. */
  function Count(words: seq<nat>, dimBatch: nat, specials: set<nat>, j: nat, n: nat): (c: nat)
    ensures c <= n
  {
    if n == 0 then 0
    else Count(words, dimBatch, specials, j, n - 1) + (if IsSpecialAt(words, dimBatch, specials, n - 1, j) then 1 else 0)
  }

  /** `currentPos[j]` once `n` rows are read: sentence `j`'s first source row
      advanced one sentence-stride per special word. */
  function Position(words: seq<nat>, dimBatch: nat, specials: set<nat>, j: nat, n: nat): nat
  {
    j + dimBatch * Count(words, dimBatch, specials, j, n)
  }

  /** The positions of all `dimBatch` sentences once `n` rows are read. */
  function Row(words: seq<nat>, dimBatch: nat, specials: set<nat>, n: nat): seq<nat>
  {
    seq(dimBatch, j requires 0 <= j < dimBatch => Position(words, dimBatch, specials, j, n))
  }

  /** Rows `lo .. hi-1` of positions, concatenated. */
  function RowsBetween(words: seq<nat>, dimBatch: nat, specials: set<nat>, lo: nat, hi: nat): (s: seq<nat>)
    ensures |s| == if lo <= hi then (hi - lo) * dimBatch else 0
    decreases hi
  {
    if hi <= lo then []
    else
      Partition.MulSucc(hi - 1 - lo, dimBatch);
      RowsBetween(words, dimBatch, specials, lo, hi - 1) + Row(words, dimBatch, specials, hi - 1)
  }

  /** The number of target rows `groundTruth` produces: the `dimWords - 1`
      iterations of its outer loop plus the leading row. */
  function NumRows(dimWords: nat): nat
  {
    if dimWords == 0 then 1 else dimWords
  }

  /** The ground-truth indices as written: a leading row of zeros, then the row
      pushed by each of the `dimWords - 1` iterations. */
  function GroundTruthAsWritten(words: seq<nat>, dimBatch: nat, dimWords: nat, specials: set<nat>): (g: seq<nat>)
    ensures |g| == dimBatch * NumRows(dimWords)
    ensures forall k :: 0 <= k < dimBatch ==> g[k] == 0
  {
    Partition.MulSucc(NumRows(dimWords) - 1, dimBatch);
    seq(dimBatch, k => 0) + RowsBetween(words, dimBatch, specials, 1, NumRows(dimWords))
  }

  /** The ground-truth indices with the leading row taken from the initial
      `currentPos`, so that every row holds each sentence's own position. */
  function AlignedGroundTruth(words: seq<nat>, dimBatch: nat, dimWords: nat, specials: set<nat>): (g: seq<nat>)
    ensures |g| == dimBatch * NumRows(dimWords)
    ensures forall j :: 0 <= j < dimBatch ==> g[j] == j
  {
    RowsBetweenFront(words, dimBatch, specials, 0, NumRows(dimWords));
    RowsBetween(words, dimBatch, specials, 0, NumRows(dimWords))
  }

  /** `a <= b` implies `a * n <= b * n`. */
  lemma MulMonotone(a: nat, b: nat, n: nat)
    requires a <= b
    ensures a * n <= b * n
  {
  }

  /** Reading one more row adds a sentence-stride exactly when that row's word is special. */
  lemma PositionStep(words: seq<nat>, dimBatch: nat, specials: set<nat>, j: nat, n: nat)
    ensures Position(words, dimBatch, specials, j, n + 1) ==
      Position(words, dimBatch, specials, j, n) + (if IsSpecialAt(words, dimBatch, specials, n, j) then dimBatch else 0)
  {
    var c := Count(words, dimBatch, specials, j, n);
    if IsSpecialAt(words, dimBatch, specials, n, j) {
      Partition.MulSucc(c, dimBatch);
      assert dimBatch * (c + 1) == (c + 1) * dimBatch;
    }
  }

  /** Every position of sentence `j` is congruent to `j` modulo the batch size. */
  lemma PositionResidue(words: seq<nat>, dimBatch: nat, specials: set<nat>, j: nat, n: nat)
    requires j < dimBatch
    ensures Position(words, dimBatch, specials, j, n) % dimBatch == j
    ensures Position(words, dimBatch, specials, j, n) <= j + dimBatch * n
  {
    var c := Count(words, dimBatch, specials, j, n);
    VersionRing.ModUnique(j + dimBatch * c, dimBatch, c, j);
    assert dimBatch * c <= dimBatch * n by {
      MulMonotone(c, n, dimBatch);
    }
  }

  /** Entry `(r - lo) * dimBatch + j` of rows `lo .. hi-1` is sentence `j`'s
      position after `r` rows. */
  lemma {:induction false} RowsBetweenAt(words: seq<nat>, dimBatch: nat, specials: set<nat>, lo: nat, hi: nat, r: nat, j: nat)
    requires lo <= r < hi && j < dimBatch
    ensures (r - lo) * dimBatch + j < |RowsBetween(words, dimBatch, specials, lo, hi)|
    ensures RowsBetween(words, dimBatch, specials, lo, hi)[(r - lo) * dimBatch + j] == Position(words, dimBatch, specials, j, r)
    decreases hi
  {
    var prefix := RowsBetween(words, dimBatch, specials, lo, hi - 1);
    assert RowsBetween(words, dimBatch, specials, lo, hi) == prefix + Row(words, dimBatch, specials, hi - 1);
    if r == hi - 1 {
      assert |prefix| == (r - lo) * dimBatch;
    } else {
      RowsBetweenAt(words, dimBatch, specials, lo, hi - 1, r, j);
    }
  }

  /** Rows `lo .. hi-1` are row `lo` followed by rows `lo+1 .. hi-1`. */
  lemma {:induction false} RowsBetweenFront(words: seq<nat>, dimBatch: nat, specials: set<nat>, lo: nat, hi: nat)
    requires lo < hi
    ensures RowsBetween(words, dimBatch, specials, lo, hi) ==
      Row(words, dimBatch, specials, lo) + RowsBetween(words, dimBatch, specials, lo + 1, hi)
    decreases hi
  {
    if hi - 1 > lo {
      RowsBetweenFront(words, dimBatch, specials, lo, hi - 1);
    }
  }

  /** The aligned ground truth has one row of `dimBatch` entries per target row,
      and row `r`, column `j` holds `j + dimBatch * (special words of sentence `j`
      in rows 0 .. r-1)`. */
  lemma AlignedGroundTruthAt(words: seq<nat>, dimBatch: nat, dimWords: nat, specials: set<nat>, r: nat, j: nat)
    requires r < NumRows(dimWords) && j < dimBatch
    ensures |AlignedGroundTruth(words, dimBatch, dimWords, specials)| == dimBatch * NumRows(dimWords)
    ensures r * dimBatch + j < dimBatch * NumRows(dimWords)
    ensures AlignedGroundTruth(words, dimBatch, dimWords, specials)[r * dimBatch + j] ==
      j + dimBatch * Count(words, dimBatch, specials, j, r)
  {
    RowsBetweenAt(words, dimBatch, specials, 0, NumRows(dimWords), r, j);
  }

  /** Down a column, consecutive entries differ by 0 or `dimBatch`, the latter
      exactly when the word read in between is special, and every entry of
      column `j` is congruent to `j` modulo `dimBatch`. */
  lemma AlignedColumn(words: seq<nat>, dimBatch: nat, dimWords: nat, specials: set<nat>, r: nat, j: nat)
    requires r + 1 < NumRows(dimWords) && j < dimBatch
    ensures var g := AlignedGroundTruth(words, dimBatch, dimWords, specials);
      (r + 1) * dimBatch + j < |g| &&
      g[(r + 1) * dimBatch + j] == g[r * dimBatch + j] + (if IsSpecialAt(words, dimBatch, specials, r, j) then dimBatch else 0) &&
      g[r * dimBatch + j] % dimBatch == j
  {
    AlignedGroundTruthAt(words, dimBatch, dimWords, specials, r, j);
    AlignedGroundTruthAt(words, dimBatch, dimWords, specials, r + 1, j);
    PositionStep(words, dimBatch, specials, j, r);
    PositionResidue(words, dimBatch, specials, j, r);
  }

  /** As written, the ground truth has `dimBatch * dimWords` entries (for
      `dimWords >= 1`), and it agrees with the aligned one after the leading row,
      whose entries are all 0. */
  lemma AsWrittenAfterLeadingRow(words: seq<nat>, dimBatch: nat, dimWords: nat, specials: set<nat>)
    ensures var w := GroundTruthAsWritten(words, dimBatch, dimWords, specials);
      var g := AlignedGroundTruth(words, dimBatch, dimWords, specials);
      |w| == |g| == dimBatch * NumRows(dimWords) &&
      w[dimBatch..] == g[dimBatch..] &&
      forall k :: 0 <= k < dimBatch ==> w[k] == 0
  {
    RowsBetweenFront(words, dimBatch, specials, 0, NumRows(dimWords));
    Partition.MulSucc(NumRows(dimWords) - 1, dimBatch);
  }

  /** As written, in a batch of two sentences the second one's first target word
      attends to row 0, the first source word of the first sentence, not to its
      own row 1. */
  lemma GroundTruthAsWrittenMisaligned()
    ensures GroundTruthAsWritten([7, 7], 2, 2, {})[1] == 0
    ensures GroundTruthAsWritten([7, 7], 2, 2, {})[1] % 2 != 1
    ensures AlignedGroundTruth([7, 7], 2, 2, {})[1] == 1
  {
    AsWrittenAfterLeadingRow([7, 7], 2, 2, {});
    AlignedGroundTruthAt([7, 7], 2, 2, {}, 0, 1);
  }

  class DecoderStateHardAtt {
    /** `attentionIndices_`. */
    var attentionIndices: seq<nat>

    constructor (attentionIndices: seq<nat>)
      ensures this.attentionIndices == attentionIndices
    {
      this.attentionIndices := attentionIndices;
    }

    /** `setAttentionIndices`. */
    method SetAttentionIndices(indices: seq<nat>)
      modifies this`attentionIndices
      ensures attentionIndices == indices
    {
      attentionIndices := indices;
    }

    /** `getAttentionIndices` (53-56): fails on an empty index vector. */
    method GetAttentionIndices() returns (r: Result<seq<nat>, string>)
      ensures r.Failure? <==> |attentionIndices| == 0
      ensures r.Failure? ==> r.error == "Empty attention indices"
      ensures r.Success? ==> r.value == attentionIndices
    {
      if |attentionIndices| == 0 {
        r := Failure("Empty attention indices");
      } else {
        r := Success(attentionIndices);
      }
    }

    /** `select(selIdx)` (29-47), index part: the new state holds the indices of the
        selected hypotheses, in selection order. */
    method Select(selIdx: seq<nat>) returns (selected: DecoderStateHardAtt)
      requires forall k :: 0 <= k < |selIdx| ==> selIdx[k] < |attentionIndices|
      ensures fresh(selected)
      ensures |selected.attentionIndices| == |selIdx|
      ensures forall k :: 0 <= k < |selIdx| ==> selected.attentionIndices[k] == attentionIndices[selIdx[k]]
    {
      var indices := GatherIndices(attentionIndices, selIdx);
      selected := new DecoderStateHardAtt(indices);
    }
  }

  class DecoderHardAtt {
    /** `specialSymbols_`. */
    const specialSymbols: set<nat>

    /** The constructor (96-103): `specialVocab` is the `special-vocab` option, if set. */
    constructor (specialVocab: Option<seq<nat>>)
      ensures specialSymbols == SpecialSymbols(specialVocab)
    {
      specialSymbols := SpecialSymbols(specialVocab);
    }

    /** `startState` (105-121), index part: the start state attends to row 0;
        `MultiDecoderHardSoftAtt::startState` (430-431) does the same. */
    method StartState() returns (state: DecoderStateHardAtt)
      ensures fresh(state) && state.attentionIndices == [0]
    {
      state := new DecoderStateHardAtt([0]);
    }

    /** The nested loops of `groundTruth` (228-239) over the batch's word matrix
        `words` (row-major, `dimBatch` sentences per row), with the leading row
        taken from the initial `currentPos`. */
    method AlignedIndices(words: seq<nat>, dimBatch: nat, dimWords: nat) returns (indices: seq<nat>)
      requires (dimWords - 1) * dimBatch <= |words|
      ensures indices == AlignedGroundTruth(words, dimBatch, dimWords, specialSymbols)
    {
      var currentPos := seq(dimBatch, j => j);
      assert currentPos == Row(words, dimBatch, specialSymbols, 0);
      indices := currentPos;
      var i: nat := 0;
      while i + 1 < dimWords
        invariant i < NumRows(dimWords)
        invariant currentPos == Row(words, dimBatch, specialSymbols, i)
        invariant indices == RowsBetween(words, dimBatch, specialSymbols, 0, i + 1)
      {
        Partition.MulSucc(i, dimBatch);
        MulMonotone(i + 1, dimWords - 1, dimBatch);
        currentPos, indices := ReadRow(words, dimBatch, i, currentPos, indices);
        i := i + 1;
      }
    }

    /** One iteration `i` of the outer loop of `groundTruth` (233-238): every
        sentence's position advances past row `i` and is appended. */
    method ReadRow(words: seq<nat>, dimBatch: nat, i: nat, currentPos: seq<nat>, indices: seq<nat>)
      returns (nextPos: seq<nat>, extended: seq<nat>)
      requires i * dimBatch + dimBatch <= |words|
      requires currentPos == Row(words, dimBatch, specialSymbols, i)
      ensures nextPos == Row(words, dimBatch, specialSymbols, i + 1)
      ensures extended == indices + nextPos
    {
      var base := i * dimBatch;
      nextPos, extended := currentPos, indices;
      var j := 0;
      while j < dimBatch
        invariant 0 <= j <= dimBatch
        invariant |nextPos| == dimBatch
        invariant forall k :: 0 <= k < j ==> nextPos[k] == Position(words, dimBatch, specialSymbols, k, i + 1)
        invariant forall k :: j <= k < dimBatch ==> nextPos[k] == Position(words, dimBatch, specialSymbols, k, i)
        invariant extended == indices + nextPos[..j]
      {
        var word := words[base + j];
        PositionStep(words, dimBatch, specialSymbols, j, i);
        if word in specialSymbols {
          nextPos := nextPos[j := nextPos[j] + dimBatch];
        }
        extended := extended + [nextPos[j]];
        j := j + 1;
      }
    }

    /** `groundTruth` (215-244), index part: the state's indices become the
        aligned ground truth of the batch. */
    method GroundTruth(state: DecoderStateHardAtt, words: seq<nat>, dimBatch: nat, dimWords: nat)
      requires (dimWords - 1) * dimBatch <= |words|
      modifies state`attentionIndices
      ensures state.attentionIndices == AlignedGroundTruth(words, dimBatch, dimWords, specialSymbols)
    {
      var indices := AlignedIndices(words, dimBatch, dimWords);
      state.SetAttentionIndices(indices);
    }

    /** `selectEmbeddings` (246-266), index part: `embIdx` are the words just
        emitted, one per hypothesis, and `dimSrcWords` the source length (for
        `MultiDecoderHardSoftAtt::selectEmbeddings`, 545-567, the length of the
        first encoder's input, the loop being the same). On
        failure (`getAttentionIndices` on empty indices) the error is returned and
        the indices are unchanged. */
    method SelectEmbeddings(state: DecoderStateHardAtt, embIdx: seq<nat>, dimSrcWords: nat) returns (error: Option<string>)
      requires |state.attentionIndices| > 0 ==>
        forall i :: 0 <= i < |embIdx| && embIdx[i] in specialSymbols ==> i < |state.attentionIndices|
      modifies state`attentionIndices
      ensures var r := SelectedAttention(old(state.attentionIndices), embIdx, specialSymbols, dimSrcWords);
        (r.Success? ==> error.None? && state.attentionIndices == r.value) &&
        (r.Failure? ==> error == Some(r.error) && state.attentionIndices == old(state.attentionIndices))
    {
      if |embIdx| == 0 {
        state.SetAttentionIndices([0]);
        return None;
      }
      ghost var start := state.attentionIndices;
      var i := 0;
      while i < |embIdx|
        invariant 0 <= i <= |embIdx|
        invariant state.attentionIndices == AdvancedUpTo(start, embIdx, specialSymbols, dimSrcWords, i)
        invariant |start| == 0 ==> forall m :: 0 <= m < i ==> embIdx[m] !in specialSymbols
      {
        if embIdx[i] in specialSymbols {
          var got := state.GetAttentionIndices();
          if got.Failure? {
            assert embIdx[i] in specialSymbols;
            return Some(got.error);
          }
          var a := got.value;
          state.SetAttentionIndices(a[i := Advance(a[i], dimSrcWords)]);
        }
        i := i + 1;
      }
      assert |start| == 0 ==> !HasSpecial(embIdx, specialSymbols);
      return None;
    }
  }
}
