/**
 * Local-maximum search on a magnitude-per-bin vector: the rule of
 * scipy.signal.find_peaks with no optional arguments, as converter.py calls it.
 *
 * A peak is a run of equal samples (a plateau of length one or more) whose left
 * neighbour and right neighbour are both strictly smaller; the reported index is
 * the middle of the run, rounded down. The first and last samples are never peaks.
 */
module Peaks {

  /** Plateau [l, r]: interior, equal samples, rising into it and falling out of it. */
  ghost predicate IsPlateauPeak(x: seq<real>, l: int, r: int)
  {
    && 1 <= l <= r < |x| - 1
    && x[l - 1] < x[l]
    && x[r + 1] < x[l]
    && forall m :: l <= m <= r ==> x[m] == x[l]
  }

  /** A strict local maximum: both direct neighbours are strictly smaller. */
  ghost predicate IsStrictLocalMax(x: seq<real>, i: int)
  {
    1 <= i < |x| - 1 && x[i - 1] < x[i] && x[i + 1] < x[i]
  }

  /** No two adjacent samples are equal. */
  ghost predicate NoPlateaus(x: seq<real>)
  {
    forall i :: 0 <= i < |x| - 1 ==> x[i] != x[i + 1]
  }

  /** Bin indices in strictly increasing order (Segments.StrictlyIncreasingTimes is the same predicate on onset times). */
  ghost predicate StrictlyIncreasing(s: seq<nat>)
  {
    forall a, b :: 0 <= a < b < |s| ==> s[a] < s[b]
  }

  /**
   * First index at or after j whose sample differs from x[i], never looking past
   * the last sample (the look-ahead of scipy's scan).
   */
  function PlateauExit(x: seq<real>, i: nat, j: nat): (k: nat)
    requires i < j <= |x| - 1
    requires forall m :: i <= m < j ==> x[m] == x[i]
    ensures j <= k <= |x| - 1
    ensures forall m :: i <= m < k ==> x[m] == x[i]
    ensures k < |x| - 1 ==> x[k] != x[i]
    decreases |x| - j
  {
    if j < |x| - 1 && x[j] == x[i] then PlateauExit(x, i, j + 1) else j
  }

  /** scipy's left-to-right scan, from position i on. */
  function ScanPeaks(x: seq<real>, i: nat): seq<nat>
    requires 1 <= i
    decreases |x| - i
  {
    if i + 1 >= |x| then []
    else if x[i - 1] < x[i] then
      var k := PlateauExit(x, i, i + 1);
      if x[k] < x[i] then [(i + k - 1) / 2] + ScanPeaks(x, k + 1) else ScanPeaks(x, i + 1)
    else ScanPeaks(x, i + 1)
  }

  /** find_peaks(x)[0]: the peak indices, in increasing order. */
  function FindPeaks(x: seq<real>): (peaks: seq<nat>)
    ensures forall k :: 0 <= k < |peaks| ==> 1 <= peaks[k] < |x| - 1
  {
    ScanBounds(x, 1);
    var peaks := ScanPeaks(x, 1);
    assert forall k :: 0 <= k < |peaks| ==> peaks[k] in peaks;
    peaks
  }

  lemma {:induction false} ScanBounds(x: seq<real>, i: nat)
    requires 1 <= i
    ensures forall p :: p in ScanPeaks(x, i) ==> i <= p < |x| - 1
    decreases |x| - i
  {
    if i + 1 >= |x| {
    } else if x[i - 1] < x[i] {
      var k := PlateauExit(x, i, i + 1);
      if x[k] < x[i] {
        ScanBounds(x, k + 1);
      } else {
        ScanBounds(x, i + 1);
      }
    } else {
      ScanBounds(x, i + 1);
    }
  }

  lemma {:induction false} ScanIncreasing(x: seq<real>, i: nat)
    requires 1 <= i
    ensures StrictlyIncreasing(ScanPeaks(x, i))
    decreases |x| - i
  {
    if i + 1 >= |x| {
    } else if x[i - 1] < x[i] {
      var k := PlateauExit(x, i, i + 1);
      if x[k] < x[i] {
        ScanIncreasing(x, k + 1);
        ScanBounds(x, k + 1);
        ConsIncreasing((i + k - 1) / 2, ScanPeaks(x, k + 1));
      } else {
        ScanIncreasing(x, i + 1);
      }
    } else {
      ScanIncreasing(x, i + 1);
    }
  }

  lemma ConsIncreasing(head: nat, rest: seq<nat>)
    requires StrictlyIncreasing(rest)
    requires forall p :: p in rest ==> head < p
    ensures StrictlyIncreasing([head] + rest)
  {
    var s := [head] + rest;
    forall a, b | 0 <= a < b < |s| ensures s[a] < s[b] {
      assert s[b] == rest[b - 1] && rest[b - 1] in rest;
      if a > 0 {
        assert s[a] == rest[a - 1];
      }
    }
  }

  /** Every reported index is the middle of a plateau peak. */
  lemma {:induction false} ScanSound(x: seq<real>, i: nat, p: nat)
    requires 1 <= i
    requires p in ScanPeaks(x, i)
    ensures exists l, r :: IsPlateauPeak(x, l, r) && p == (l + r) / 2
    decreases |x| - i
  {
    if i + 1 >= |x| {
    } else if x[i - 1] < x[i] {
      var k := PlateauExit(x, i, i + 1);
      if x[k] < x[i] {
        if p == (i + k - 1) / 2 {
          assert IsPlateauPeak(x, i, k - 1);
        } else {
          ScanSound(x, k + 1, p);
        }
      } else {
        ScanSound(x, i + 1, p);
      }
    } else {
      ScanSound(x, i + 1, p);
    }
  }

  /** Every plateau peak starting at or after i is reported by its middle index. */
  lemma {:induction false} ScanComplete(x: seq<real>, i: nat, l: int, r: int)
    requires 1 <= i <= l
    requires IsPlateauPeak(x, l, r)
    ensures (l + r) / 2 in ScanPeaks(x, i)
    decreases |x| - i
  {
    if x[i - 1] < x[i] {
      var k := PlateauExit(x, i, i + 1);
      if l == i {
        ExitAtPlateauEnd(x, l, r);
      } else if x[k] < x[i] {
        ExitBeforePlateau(x, i, l, r);
        ScanComplete(x, k + 1, l, r);
      } else {
        ScanComplete(x, i + 1, l, r);
      }
    } else {
      ScanComplete(x, i + 1, l, r);
    }
  }

  /** The look-ahead from the start of a plateau peak stops just past its end. */
  lemma ExitAtPlateauEnd(x: seq<real>, l: int, r: int)
    requires IsPlateauPeak(x, l, r)
    ensures PlateauExit(x, l, l + 1) == r + 1
  {
    var k := PlateauExit(x, l, l + 1);
    // The ghost variables name the samples x[r + 1] and x[k], so that the verifier
    // instantiates the plateau and look-ahead quantifiers at them.
    ghost var past := x[r + 1];
    assert k <= r + 1;
    ghost var stop := x[k];
    assert k >= r + 1;
  }

  /**
   * When the scan reports the plateau starting at i (it falls after the look-ahead),
   * its jump past that plateau never skips the start of a later plateau peak.
   */
  lemma ExitBeforePlateau(x: seq<real>, i: nat, l: int, r: int)
    requires 1 <= i < l
    requires IsPlateauPeak(x, l, r)
    requires x[i - 1] < x[i]
    requires x[PlateauExit(x, i, i + 1)] < x[i]
    ensures PlateauExit(x, i, i + 1) + 1 <= l
  {
    var k := PlateauExit(x, i, i + 1);
    // Naming x[l - 1] and x[l] lets the verifier apply the look-ahead's quantifier
    // at the rising edge of the later plateau.
    ghost var before, first := x[l - 1], x[l];
    assert k < l;
  }

  /** Characterisation of find_peaks: the reported indices are exactly the plateau middles. */
  lemma FindPeaksSpec(x: seq<real>)
    ensures StrictlyIncreasing(FindPeaks(x))
    ensures forall p :: p in FindPeaks(x) ==> exists l, r :: IsPlateauPeak(x, l, r) && p == (l + r) / 2
    ensures forall l, r :: IsPlateauPeak(x, l, r) ==> (l + r) / 2 in FindPeaks(x)
  {
    ScanIncreasing(x, 1);
    forall p | p in FindPeaks(x)
      ensures exists l, r :: IsPlateauPeak(x, l, r) && p == (l + r) / 2
    {
      ScanSound(x, 1, p);
    }
    forall l, r | IsPlateauPeak(x, l, r)
      ensures (l + r) / 2 in FindPeaks(x)
    {
      ScanComplete(x, 1, l, r);
    }
  }

  /** Every strict local maximum is reported. */
  lemma StrictLocalMaxIsPeak(x: seq<real>, i: int)
    requires IsStrictLocalMax(x, i)
    ensures i in FindPeaks(x)
  {
    assert IsPlateauPeak(x, i, i);
    ScanComplete(x, 1, i, i);
  }

  /** Without plateaus, the reported indices are exactly the strict local maxima. */
  lemma NoPlateausPeaksExact(x: seq<real>)
    requires NoPlateaus(x)
    ensures forall i :: i in FindPeaks(x) <==> IsStrictLocalMax(x, i)
  {
    forall i | i in FindPeaks(x)
      ensures IsStrictLocalMax(x, i)
    {
      ScanSound(x, 1, i);
      var l, r :| IsPlateauPeak(x, l, r) && i == (l + r) / 2;
      if l < r {
        assert x[l] == x[l + 1];
      }
    }
    forall i | IsStrictLocalMax(x, i)
      ensures i in FindPeaks(x)
    {
      StrictLocalMaxIsPeak(x, i);
    }
  }

  /** A vector whose samples are all equal (all zero, say) has no peaks. */
  lemma ConstantHasNoPeaks(x: seq<real>, c: real)
    requires forall i :: 0 <= i < |x| ==> x[i] == c
    ensures FindPeaks(x) == []
  {
    if FindPeaks(x) != [] {
      var p := FindPeaks(x)[0];
      ScanSound(x, 1, p);
    }
  }

  /** A strictly rising then strictly falling vector has exactly one peak, at its summit. */
  lemma UnimodalHasOnePeak(x: seq<real>, top: int)
    requires 0 < top < |x| - 1
    requires forall i :: 0 <= i < top ==> x[i] < x[i + 1]
    requires forall i :: top <= i < |x| - 1 ==> x[i + 1] < x[i]
    ensures FindPeaks(x) == [top]
  {
    var ps := FindPeaks(x);
    assert IsStrictLocalMax(x, top);
    StrictLocalMaxIsPeak(x, top);
    FindPeaksSpec(x);
    forall a | 0 <= a < |ps|
      ensures ps[a] == top
    {
      var p := ps[a];
      assert p in ps;
      var l, r :| IsPlateauPeak(x, l, r) && p == (l + r) / 2;
      // Naming both neighbours of l lets the verifier apply the rising and falling hypotheses there.
      ghost var before, after := x[l - 1], x[l + 1];
      assert l >= top;
      assert l <= top;
      assert r == top;
    }
    assert ps[0] == ps[|ps| - 1];
    assert |ps| == 1;
  }
}
