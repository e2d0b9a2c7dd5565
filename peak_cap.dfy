/**
 * The note-count budget of converter.py: when `number_of_notes` is truthy and a
 * segment has more peaks than that, keep
 *   peaks[np.argsort(magnitude[peaks])[::-1][:number_of_notes]]
 * that is, the peaks ranked by decreasing magnitude, cut with Python's `[:k]`.
 */
module PeakCap {
  import opened Options

  ghost predicate IndicesIn(peaks: seq<nat>, magnitude: seq<real>)
  {
    forall i :: 0 <= i < |peaks| ==> peaks[i] < |magnitude|
  }

  /** Magnitudes do not increase along the sequence. */
  ghost predicate DescendingBy(magnitude: seq<real>, s: seq<nat>)
    requires IndicesIn(s, magnitude)
  {
    forall a, b :: 0 <= a < b < |s| ==> magnitude[s[a]] >= magnitude[s[b]]
  }

  /** Python's `s[:k]`: a prefix; a negative k drops |k| elements from the end. */
  function PyPrefix<T>(s: seq<T>, k: int): (r: seq<T>)
    ensures r <= s
    ensures 0 <= k ==> |r| == if k < |s| then k else |s|
    ensures k < 0 ==> |r| == if |s| + k > 0 then |s| + k else 0
  {
    if 0 <= k then (if k < |s| then s[..k] else s)
    else if |s| + k > 0 then s[..|s| + k] else []
  }

  /** No entry of s is louder than bound. */
  ghost predicate AtMost(magnitude: seq<real>, s: seq<nat>, bound: real)
    requires IndicesIn(s, magnitude)
  {
    forall i :: 0 <= i < |s| ==> magnitude[s[i]] <= bound
  }

  /**
   * Insert p into a ranking, in front of the first entry whose magnitude is not
   * larger: among equal magnitudes the later peak goes first, which is the order of
   * a stable ascending argsort read backwards.
   */
  function Insert(magnitude: seq<real>, p: nat, ranked: seq<nat>): (r: seq<nat>)
    requires p < |magnitude| && IndicesIn(ranked, magnitude)
    ensures |r| == |ranked| + 1
    ensures IndicesIn(r, magnitude)
    ensures multiset(r) == multiset(ranked) + multiset{p}
  {
    if ranked == [] then [p]
    else if magnitude[ranked[0]] <= magnitude[p] then [p] + ranked
    else
      assert ranked == [ranked[0]] + ranked[1..];
      [ranked[0]] + Insert(magnitude, p, ranked[1..])
  }

  lemma ConsDescending(magnitude: seq<real>, head: nat, s: seq<nat>)
    requires head < |magnitude| && IndicesIn(s, magnitude)
    requires DescendingBy(magnitude, s) && AtMost(magnitude, s, magnitude[head])
    ensures IndicesIn([head] + s, magnitude) && DescendingBy(magnitude, [head] + s)
  {
    var t := [head] + s;
    forall a, b | 0 <= a < b < |t| ensures magnitude[t[a]] >= magnitude[t[b]] {
      assert t[b] == s[b - 1];
      if a > 0 {
        assert t[a] == s[a - 1];
      }
    }
  }

  lemma {:induction false} InsertAtMost(magnitude: seq<real>, p: nat, ranked: seq<nat>, bound: real)
    requires p < |magnitude| && IndicesIn(ranked, magnitude)
    requires AtMost(magnitude, ranked, bound) && magnitude[p] <= bound
    ensures AtMost(magnitude, Insert(magnitude, p, ranked), bound)
  {
    if ranked != [] && magnitude[ranked[0]] > magnitude[p] {
      InsertAtMost(magnitude, p, ranked[1..], bound);
      var r := Insert(magnitude, p, ranked);
      assert r == [ranked[0]] + Insert(magnitude, p, ranked[1..]);
    }
  }

  lemma {:induction false} InsertDescending(magnitude: seq<real>, p: nat, ranked: seq<nat>)
    requires p < |magnitude| && IndicesIn(ranked, magnitude)
    requires DescendingBy(magnitude, ranked)
    ensures DescendingBy(magnitude, Insert(magnitude, p, ranked))
  {
    if ranked == [] {
    } else if magnitude[ranked[0]] <= magnitude[p] {
      ConsDescending(magnitude, p, ranked);
    } else {
      var rest := ranked[1..];
      InsertDescending(magnitude, p, rest);
      InsertAtMost(magnitude, p, rest, magnitude[ranked[0]]);
      ConsDescending(magnitude, ranked[0], Insert(magnitude, p, rest));
    }
  }

  /** np.argsort(magnitude[peaks])[::-1] applied to peaks. */
  function RankByMagnitude(magnitude: seq<real>, peaks: seq<nat>): (r: seq<nat>)
    requires IndicesIn(peaks, magnitude)
    ensures IndicesIn(r, magnitude)
    ensures |r| == |peaks|
    ensures multiset(r) == multiset(peaks)
    ensures DescendingBy(magnitude, r)
  {
    if peaks == [] then []
    else
      var last := |peaks| - 1;
      assert peaks == peaks[..last] + [peaks[last]];
      var ranked := RankByMagnitude(magnitude, peaks[..last]);
      InsertDescending(magnitude, peaks[last], ranked);
      Insert(magnitude, peaks[last], ranked)
  }

  /** `number_of_notes and len(peaks) > number_of_notes`. */
  predicate CapApplies(cap: Option<int>, count: nat)
  {
    cap.Some? && cap.value != 0 && count > cap.value
  }

  /** The peaks that survive the note-count budget. */
  function CapPeaks(peaks: seq<nat>, magnitude: seq<real>, cap: Option<int>): (r: seq<nat>)
    requires IndicesIn(peaks, magnitude)
    ensures IndicesIn(r, magnitude)
    ensures multiset(r) <= multiset(peaks)
    ensures !CapApplies(cap, |peaks|) ==> r == peaks
  {
    if CapApplies(cap, |peaks|) then
      var ranked := RankByMagnitude(magnitude, peaks);
      var kept := PyPrefix(ranked, cap.value);
      assert ranked == kept + ranked[|kept|..];
      kept
    else peaks
  }

  /** In a descending ranking, every entry before position k is at least as loud as every entry from k on. */
  lemma SplitDominates(magnitude: seq<real>, s: seq<nat>, k: nat)
    requires IndicesIn(s, magnitude) && DescendingBy(magnitude, s) && k <= |s|
    ensures forall q, d :: q in s[..k] && d in s[k..] ==> d < |magnitude| && magnitude[q] >= magnitude[d]
  {
    forall q, d | q in s[..k] && d in s[k..]
      ensures d < |magnitude| && magnitude[q] >= magnitude[d]
    {
      var a :| 0 <= a < k && s[..k][a] == q;
      var b :| 0 <= b < |s| - k && s[k..][b] == d;
      assert s[a] == q && s[k + b] == d;
    }
  }

  /**
   * A positive budget below the peak count keeps exactly that many peaks, drawn
   * from the original ones, in decreasing magnitude, and no dropped peak is louder
   * than a kept one.
   */
  lemma CapKeepsLoudest(peaks: seq<nat>, magnitude: seq<real>, k: int)
    requires IndicesIn(peaks, magnitude)
    requires 0 < k < |peaks|
    ensures |CapPeaks(peaks, magnitude, Some(k))| == k
    ensures DescendingBy(magnitude, CapPeaks(peaks, magnitude, Some(k)))
    ensures forall q, d ::
              q in CapPeaks(peaks, magnitude, Some(k))
              && d in multiset(peaks) - multiset(CapPeaks(peaks, magnitude, Some(k)))
              ==> d < |magnitude| && magnitude[q] >= magnitude[d]
  {
    var ranked := RankByMagnitude(magnitude, peaks);
    var kept := CapPeaks(peaks, magnitude, Some(k));
    assert kept == ranked[..k];
    var dropped := ranked[k..];
    assert ranked == kept + dropped;
    assert multiset(ranked) == multiset(kept) + multiset(dropped);
    assert multiset(peaks) - multiset(kept) == multiset(dropped);
    SplitDominates(magnitude, ranked, k);
    forall a, b | 0 <= a < b < |kept| ensures magnitude[kept[a]] >= magnitude[kept[b]] {
      assert kept[a] == ranked[a] && kept[b] == ranked[b];
    }
  }

  /** A negative budget is truthy too: `[:k]` then drops the |k| quietest peaks. */
  lemma NegativeCapDropsQuietest(peaks: seq<nat>, magnitude: seq<real>, k: int)
    requires IndicesIn(peaks, magnitude)
    requires k < 0
    ensures |CapPeaks(peaks, magnitude, Some(k))| == if |peaks| + k > 0 then |peaks| + k else 0
    ensures CapPeaks(peaks, magnitude, Some(k)) <= RankByMagnitude(magnitude, peaks)
  {
  }
}
