/**
 * Segment boundaries and the per-segment magnitude vector of converter.py:
 * segment i runs from onset i to onset i + 1, the last one to the end of the
 * signal, and its magnitude vector is np.sum(C[:, start_frame:end_frame], axis=1).
 */
module Segments {

  /** A bins x frames magnitude matrix: one row per pitch bin, one column per frame. */
  type Matrix = seq<seq<real>>

  /** Start of segment i: its onset. */
  function SegmentStart(onsets: seq<real>, i: nat): real
    requires i < |onsets|
  {
    onsets[i]
  }

  /**
   * End of segment i: the next onset, or the signal duration after the last onset.
   * With ordered onsets inside the signal, every segment ends after it starts and
   * no later than the end of the signal.
   */
  function SegmentEnd(onsets: seq<real>, duration: real, i: nat): (t: real)
    requires i < |onsets|
    ensures NonDecreasingTimes(onsets) && (forall a :: 0 <= a < |onsets| ==> onsets[a] <= duration) ==>
              onsets[i] <= t <= duration
    ensures StrictlyIncreasingTimes(onsets) && (forall a :: 0 <= a < |onsets| ==> onsets[a] < duration) ==>
              onsets[i] < t <= duration
  {
    if i + 1 < |onsets| then onsets[i + 1] else duration
  }

  /** Onsets in strictly increasing order (Peaks.StrictlyIncreasing is the same predicate on bin indices). */
  ghost predicate StrictlyIncreasingTimes(onsets: seq<real>)
  {
    forall a, b :: 0 <= a < b < |onsets| ==> onsets[a] < onsets[b]
  }

  ghost predicate NonDecreasingTimes(onsets: seq<real>)
  {
    forall a, b :: 0 <= a < b < |onsets| ==> onsets[a] <= onsets[b]
  }

  /** Strictly increasing onsets that all precede the end of the signal give every segment a positive length. */
  lemma SegmentsHavePositiveLength(onsets: seq<real>, duration: real, i: nat)
    requires StrictlyIncreasingTimes(onsets)
    requires forall a :: 0 <= a < |onsets| ==> onsets[a] < duration
    requires i < |onsets|
    ensures SegmentEnd(onsets, duration, i) - SegmentStart(onsets, i) > 0.0
  {
  }

  /** Sum of a sequence (exact reals, so the order of the additions does not matter). */
  function Sum(s: seq<real>): real
  {
    if s == [] then 0.0 else Sum(s[..|s| - 1]) + s[|s| - 1]
  }

  lemma {:induction false} SumAppend(s: seq<real>, t: seq<real>)
    ensures Sum(s + t) == Sum(s) + Sum(t)
    decreases |t|
  {
    if t == [] {
      assert s + t == s;
    } else {
      var last := |t| - 1;
      assert s + t == (s + t[..last]) + [t[last]];
      assert (s + t)[..|s + t| - 1] == s + t[..last];
      SumAppend(s, t[..last]);
    }
  }

  lemma {:induction false} SumOfZeros(s: seq<real>)
    requires forall k :: 0 <= k < |s| ==> s[k] == 0.0
    ensures Sum(s) == 0.0
  {
    if s != [] {
      SumOfZeros(s[..|s| - 1]);
    }
  }

  lemma {:induction false} SumNonNegative(s: seq<real>)
    requires forall k :: 0 <= k < |s| ==> s[k] >= 0.0
    ensures Sum(s) >= 0.0
  {
    if s != [] {
      SumNonNegative(s[..|s| - 1]);
    }
  }

  function Min(a: int, b: int): int
  {
    if a < b then a else b
  }

  /** numpy's row[lo:hi] for non-negative bounds: both are clamped to the row length. */
  function SliceRow(row: seq<real>, lo: nat, hi: nat): (r: seq<real>)
    ensures |r| == if Min(lo, |row|) < Min(hi, |row|) then Min(hi, |row|) - Min(lo, |row|) else 0
    ensures forall k :: 0 <= k < |r| ==> lo + k < |row| && r[k] == row[lo + k]
  {
    var a := Min(lo, |row|);
    var b := Min(hi, |row|);
    if a < b then row[a..b] else []
  }

  /** C[:, lo:hi]: every bin keeps its row, cut to the frames lo .. hi - 1 that exist. */
  function SliceColumns(c: Matrix, lo: nat, hi: nat): (r: Matrix)
    ensures |r| == |c|
    ensures forall b :: 0 <= b < |c| ==> |r[b]| <= |c[b]|
    ensures forall b :: 0 <= b < |c| && lo <= hi <= |c[b]| ==> |r[b]| == hi - lo
    ensures forall b :: 0 <= b < |c| && hi <= lo ==> r[b] == []
    ensures forall b, k :: 0 <= b < |c| && 0 <= k < |r[b]| ==> lo + k < |c[b]| && r[b][k] == c[b][lo + k]
  {
    seq(|c|, b requires 0 <= b < |c| => SliceRow(c[b], lo, hi))
  }

  /**
   * np.sum(m, axis=1): one total per pitch bin. An empty row totals zero, and a row
   * of non-negative magnitudes a non-negative total.
   */
  function RowSums(m: Matrix): (r: seq<real>)
    ensures |r| == |m|
    ensures forall b :: 0 <= b < |m| && m[b] == [] ==> r[b] == 0.0
    ensures forall b :: 0 <= b < |m| && (forall k :: 0 <= k < |m[b]| ==> m[b][k] >= 0.0) ==> r[b] >= 0.0
  {
    RowsNonNegative(m);
    seq(|m|, b requires 0 <= b < |m| => Sum(m[b]))
  }

  lemma RowsNonNegative(m: Matrix)
    ensures forall b :: 0 <= b < |m| && (forall k :: 0 <= k < |m[b]| ==> m[b][k] >= 0.0) ==> Sum(m[b]) >= 0.0
  {
    forall b | 0 <= b < |m| && (forall k :: 0 <= k < |m[b]| ==> m[b][k] >= 0.0)
      ensures Sum(m[b]) >= 0.0
    {
      SumNonNegative(m[b]);
    }
  }

  /** The magnitude vector of the frame range [lo, hi). */
  function RangeMagnitude(c: Matrix, lo: nat, hi: nat): (r: seq<real>)
    ensures |r| == |c|
  {
    RowSums(SliceColumns(c, lo, hi))
  }

  /** An empty frame range (end frame not after the start frame) leaves every bin at zero. */
  lemma EmptyRangeIsSilent(c: Matrix, lo: nat, hi: nat)
    requires hi <= lo
    ensures forall b :: 0 <= b < |c| ==> RangeMagnitude(c, lo, hi)[b] == 0.0
  {
    forall b | 0 <= b < |c| ensures RangeMagnitude(c, lo, hi)[b] == 0.0 {
      assert SliceRow(c[b], lo, hi) == [];
    }
  }

  /** A range of frames that are all zero leaves every bin at zero. */
  lemma ZeroRangeIsSilent(c: Matrix, lo: nat, hi: nat)
    requires forall b, k :: 0 <= b < |c| && lo <= k < hi && k < |c[b]| ==> c[b][k] == 0.0
    ensures forall b :: 0 <= b < |c| ==> RangeMagnitude(c, lo, hi)[b] == 0.0
  {
    forall b | 0 <= b < |c| ensures RangeMagnitude(c, lo, hi)[b] == 0.0 {
      var row := SliceRow(c[b], lo, hi);
      assert forall k :: 0 <= k < |row| ==> row[k] == c[b][lo + k];
      SumOfZeros(row);
    }
  }

  /** Non-negative CQT magnitudes give non-negative segment magnitudes. */
  lemma RangeMagnitudeNonNegative(c: Matrix, lo: nat, hi: nat)
    requires forall b, k :: 0 <= b < |c| && 0 <= k < |c[b]| ==> c[b][k] >= 0.0
    ensures forall b :: 0 <= b < |c| ==> RangeMagnitude(c, lo, hi)[b] >= 0.0
  {
    forall b | 0 <= b < |c| ensures RangeMagnitude(c, lo, hi)[b] >= 0.0 {
      SumNonNegative(SliceRow(c[b], lo, hi));
    }
  }

  /**
   * Adjacent frame ranges split a bin's energy: the magnitude of [lo, hi) is the
   * magnitude of [lo, mid) plus that of [mid, hi), so consecutive segments whose
   * frame ranges meet account for every frame exactly once.
   */
  lemma AdjacentRangesAdd(c: Matrix, lo: nat, mid: nat, hi: nat, b: nat)
    requires lo <= mid <= hi && b < |c|
    ensures RangeMagnitude(c, lo, hi)[b] == RangeMagnitude(c, lo, mid)[b] + RangeMagnitude(c, mid, hi)[b]
  {
    var row := c[b];
    var whole, left, right := SliceRow(row, lo, hi), SliceRow(row, lo, mid), SliceRow(row, mid, hi);
    assert whole == left + right;
    SumAppend(left, right);
  }
}
