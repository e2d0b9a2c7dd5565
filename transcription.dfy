/**
 * What one pass of vocal_transform / non_vocal_transform computes, as functions:
 * the notes of one segment given its magnitude vector, the notes of all segments
 * in emission order, and the final list sorted by start time. The loops in the
 * Converter module are proved to compute exactly these.
 */
module Transcription {
  import opened Options
  import opened Velocity
  import opened Peaks
  import opened PeakCap
  import opened Segments
  import opened Notes
  import opened Regimes

  /** np.max over a non-empty vector. */
  function MaxMagnitude(magnitude: seq<real>): (m: real)
    requires |magnitude| > 0
    ensures forall b :: 0 <= b < |magnitude| ==> magnitude[b] <= m
    ensures exists b :: 0 <= b < |magnitude| && magnitude[b] == m
  {
    if |magnitude| == 1 then magnitude[0]
    else
      var front := MaxMagnitude(magnitude[..|magnitude| - 1]);
      var last := magnitude[|magnitude| - 1];
      if front < last then last else front
  }

  /** The velocity scale_velocity gives bin `peak` of a segment. */
  function PeakVelocity(logRatio: LogRatio, magnitude: seq<real>, peak: nat): (v: nat)
    requires peak < |magnitude|
    ensures v <= MaxVelocity
  {
    ScaleVelocity(logRatio, magnitude[peak], MaxMagnitude(magnitude))
  }

  /** The velocity test a peak must pass to be emitted. */
  predicate Accepts(regime: Regime, logRatio: LogRatio, magnitude: seq<real>, peak: nat)
    requires peak < |magnitude|
  {
    PeakVelocity(logRatio, magnitude, peak) > Threshold(regime)
  }

  /**
   * Velocity 0 is never accepted, so a bin with no energy gives no note. Under the
   * log1p laws the loudest bin of a segment, if positive, gets velocity 127 and
   * passes either threshold.
   */
  lemma AcceptsLoudestRejectsSilent(regime: Regime, logRatio: LogRatio, magnitude: seq<real>, peak: nat)
    requires peak < |magnitude|
    ensures magnitude[peak] <= 0.0 ==> !Accepts(regime, logRatio, magnitude, peak)
    ensures LogRatioLaws(logRatio) && magnitude[peak] > 0.0 && magnitude[peak] == MaxMagnitude(magnitude) ==>
              Accepts(regime, logRatio, magnitude, peak)
  {
  }

  /** The note a peak of segment [start, end) becomes when accepted: a MIDI pitch of the regime's grid and a velocity within MIDI range. */
  function NoteFor(regime: Regime, logRatio: LogRatio, start: real, end: real, magnitude: seq<real>, peak: nat): (n: Note)
    requires peak < |magnitude|
    ensures LowestPitch <= n.pitch
    ensures peak < BinCount(regime) ==> n.pitch <= HighestPitch
    ensures 0 <= n.velocity <= MaxVelocity
  {
    Note(start, PitchOf(regime, peak), end - start,
         EmittedVelocity(regime, PeakVelocity(logRatio, magnitude, peak), peak))
  }

  /** The notes the inner `for peak in peaks` loop appends, in order. */
  function PeakNotes(regime: Regime, logRatio: LogRatio, start: real, end: real, magnitude: seq<real>, peaks: seq<nat>): (r: seq<Note>)
    requires IndicesIn(peaks, magnitude)
    ensures |r| <= |peaks|
  {
    if peaks == [] then []
    else
      var last := |peaks| - 1;
      var front := PeakNotes(regime, logRatio, start, end, magnitude, peaks[..last]);
      if Accepts(regime, logRatio, magnitude, peaks[last])
      then front + [NoteFor(regime, logRatio, start, end, magnitude, peaks[last])]
      else front
  }

  /** The peaks of a segment after the note-count budget. */
  function SegmentPeaks(magnitude: seq<real>, cap: Option<int>): (peaks: seq<nat>)
    ensures IndicesIn(peaks, magnitude)
    ensures forall k :: 0 <= k < |peaks| ==> 1 <= peaks[k] < |magnitude| - 1
  {
    var found := FindPeaks(magnitude);
    var kept := CapPeaks(found, magnitude, cap);
    assert forall k :: 0 <= k < |kept| ==> kept[k] in multiset(found);
    assert forall k :: 0 <= k < |kept| ==> 1 <= kept[k] < |magnitude| - 1 by {
      forall k | 0 <= k < |kept| ensures 1 <= kept[k] < |magnitude| - 1 {
        assert kept[k] in multiset(found);
        var j :| 0 <= j < |found| && found[j] == kept[k];
      }
    }
    kept
  }

  /** The notes one segment contributes, in emission order. */
  function SegmentNotes(regime: Regime, logRatio: LogRatio, start: real, end: real, magnitude: seq<real>, cap: Option<int>): seq<Note>
  {
    PeakNotes(regime, logRatio, start, end, magnitude, SegmentPeaks(magnitude, cap))
  }

  /** The notes of every segment, one list per segment, in onset order. */
  function SegmentLists(regime: Regime, logRatio: LogRatio, onsets: seq<real>, duration: real,
                        magnitudes: seq<seq<real>>, cap: Option<int>): (lists: seq<seq<Note>>)
    requires |onsets| == |magnitudes|
    ensures |lists| == |onsets|
  {
    seq(|onsets|, i requires 0 <= i < |onsets| =>
      SegmentNotes(regime, logRatio, onsets[i], SegmentEnd(onsets, duration, i), magnitudes[i], cap))
  }

  /** The `notes` list after the first n segments, before sorting. */
  function Emitted(regime: Regime, logRatio: LogRatio, onsets: seq<real>, duration: real,
                   magnitudes: seq<seq<real>>, cap: Option<int>, n: nat): seq<Note>
    requires n <= |onsets| == |magnitudes|
  {
    Concat(SegmentLists(regime, logRatio, onsets, duration, magnitudes, cap)[..n])
  }

  /** One more segment appends its notes. */
  lemma EmittedStep(regime: Regime, logRatio: LogRatio, onsets: seq<real>, duration: real,
                    magnitudes: seq<seq<real>>, cap: Option<int>, n: nat)
    requires n < |onsets| == |magnitudes|
    ensures Emitted(regime, logRatio, onsets, duration, magnitudes, cap, n + 1)
            == Emitted(regime, logRatio, onsets, duration, magnitudes, cap, n)
               + SegmentNotes(regime, logRatio, onsets[n], SegmentEnd(onsets, duration, n), magnitudes[n], cap)
  {
    ConcatStep(SegmentLists(regime, logRatio, onsets, duration, magnitudes, cap), n);
  }

  /** The list a transform returns: all emitted notes, sorted by start time. */
  function Transcribed(regime: Regime, logRatio: LogRatio, onsets: seq<real>, duration: real,
                       magnitudes: seq<seq<real>>, cap: Option<int>): seq<Note>
    requires |onsets| == |magnitudes|
  {
    SortByStart(Emitted(regime, logRatio, onsets, duration, magnitudes, cap, |onsets|))
  }

  // ----- properties of one segment -----

  /** A note is emitted for a segment exactly when one of its kept peaks passes the velocity test. */
  lemma {:induction false} PeakNotesMembers(regime: Regime, logRatio: LogRatio, start: real, end: real,
                                            magnitude: seq<real>, peaks: seq<nat>)
    requires IndicesIn(peaks, magnitude)
    ensures forall n :: n in PeakNotes(regime, logRatio, start, end, magnitude, peaks) <==>
              exists k :: 0 <= k < |peaks| && Accepts(regime, logRatio, magnitude, peaks[k])
                          && n == NoteFor(regime, logRatio, start, end, magnitude, peaks[k])
  {
    if peaks != [] {
      var last := |peaks| - 1;
      var front := peaks[..last];
      PeakNotesMembers(regime, logRatio, start, end, magnitude, front);
      forall n | n in PeakNotes(regime, logRatio, start, end, magnitude, peaks)
        ensures exists k :: 0 <= k < |peaks| && Accepts(regime, logRatio, magnitude, peaks[k])
                            && n == NoteFor(regime, logRatio, start, end, magnitude, peaks[k])
      {
        if n in PeakNotes(regime, logRatio, start, end, magnitude, front) {
          var k :| 0 <= k < |front| && Accepts(regime, logRatio, magnitude, front[k])
                   && n == NoteFor(regime, logRatio, start, end, magnitude, front[k]);
          assert front[k] == peaks[k];
        } else {
          assert Accepts(regime, logRatio, magnitude, peaks[last]);
          assert n == NoteFor(regime, logRatio, start, end, magnitude, peaks[last]);
        }
      }
      forall k | 0 <= k < |peaks| && Accepts(regime, logRatio, magnitude, peaks[k])
        ensures NoteFor(regime, logRatio, start, end, magnitude, peaks[k])
                in PeakNotes(regime, logRatio, start, end, magnitude, peaks)
      {
        if k < last {
          assert front[k] == peaks[k];
        }
      }
    }
  }

  /** A segment whose magnitude vector is all zero (or otherwise flat) yields no notes. */
  lemma FlatSegmentIsSilent(regime: Regime, logRatio: LogRatio, start: real, end: real,
                            magnitude: seq<real>, cap: Option<int>, level: real)
    requires forall b :: 0 <= b < |magnitude| ==> magnitude[b] == level
    ensures SegmentNotes(regime, logRatio, start, end, magnitude, cap) == []
  {
    ConstantHasNoPeaks(magnitude, level);
  }

  /** With a positive budget, a segment yields at most that many notes. */
  lemma SegmentRespectsBudget(regime: Regime, logRatio: LogRatio, start: real, end: real,
                              magnitude: seq<real>, k: int)
    requires k > 0
    ensures |SegmentNotes(regime, logRatio, start, end, magnitude, Some(k))| <= k
  {
    var found := FindPeaks(magnitude);
    if |found| > k {
      CapKeepsLoudest(found, magnitude, k);
    }
  }

  /** Without a budget (None or 0) every peak of the segment is considered. */
  lemma NoBudgetKeepsAllPeaks(magnitude: seq<real>, cap: Option<int>)
    requires cap == None || cap == Some(0)
    ensures SegmentPeaks(magnitude, cap) == FindPeaks(magnitude)
  {
  }

  /** Every note of a segment starts at the segment start, lasts the segment length and comes from an interior bin. */
  lemma SegmentNoteShape(regime: Regime, logRatio: LogRatio, start: real, end: real,
                         magnitude: seq<real>, cap: Option<int>, n: Note)
    requires n in SegmentNotes(regime, logRatio, start, end, magnitude, cap)
    ensures n.start == start && n.duration == end - start
    ensures exists p: nat :: 1 <= p < |magnitude| - 1 && Accepts(regime, logRatio, magnitude, p)
                              && n == NoteFor(regime, logRatio, start, end, magnitude, p)
  {
    var peaks := SegmentPeaks(magnitude, cap);
    PeakNotesMembers(regime, logRatio, start, end, magnitude, peaks);
    var k :| 0 <= k < |peaks| && Accepts(regime, logRatio, magnitude, peaks[k])
             && n == NoteFor(regime, logRatio, start, end, magnitude, peaks[k]);
  }

  // ----- properties of the whole run -----

  /** A note is in the emitted list exactly when some segment emitted it. */
  lemma EmittedMembers(regime: Regime, logRatio: LogRatio, onsets: seq<real>, duration: real,
                       magnitudes: seq<seq<real>>, cap: Option<int>, count: nat)
    requires count <= |onsets| == |magnitudes|
    ensures forall n :: n in Emitted(regime, logRatio, onsets, duration, magnitudes, cap, count) <==>
              exists i :: 0 <= i < count
                          && n in SegmentNotes(regime, logRatio, onsets[i], SegmentEnd(onsets, duration, i), magnitudes[i], cap)
  {
    var lists: seq<seq<Note>> := SegmentLists(regime, logRatio, onsets, duration, magnitudes, cap)[..count];
    ConcatMembers(lists);
    forall i: int | 0 <= i < count
      ensures lists[i] == SegmentNotes(regime, logRatio, onsets[i], SegmentEnd(onsets, duration, i), magnitudes[i], cap)
    {
    }
  }

  /** Every note of a segment starts at the segment start. */
  lemma SegmentNotesTiming(regime: Regime, logRatio: LogRatio, start: real, end: real,
                           magnitude: seq<real>, cap: Option<int>)
    ensures forall k :: 0 <= k < |SegmentNotes(regime, logRatio, start, end, magnitude, cap)| ==>
              SegmentNotes(regime, logRatio, start, end, magnitude, cap)[k].start == start
  {
    var seg := SegmentNotes(regime, logRatio, start, end, magnitude, cap);
    forall k | 0 <= k < |seg| ensures seg[k].start == start {
      SegmentNoteShape(regime, logRatio, start, end, magnitude, cap, seg[k]);
    }
  }

  /** Segments are processed in onset order, so with ordered onsets the notes are emitted in start order already. */
  lemma EmittedInOrder(regime: Regime, logRatio: LogRatio, onsets: seq<real>, duration: real,
                       magnitudes: seq<seq<real>>, cap: Option<int>)
    requires |onsets| == |magnitudes|
    requires NonDecreasingTimes(onsets)
    ensures SortedByStart(Emitted(regime, logRatio, onsets, duration, magnitudes, cap, |onsets|))
  {
    var lists: seq<seq<Note>> := SegmentLists(regime, logRatio, onsets, duration, magnitudes, cap);
    forall i: int | 0 <= i < |lists|
      ensures forall k: int :: 0 <= k < |lists[i]| ==> lists[i][k].start == onsets[i]
    {
      SegmentNotesTiming(regime, logRatio, onsets[i], SegmentEnd(onsets, duration, i), magnitudes[i], cap);
    }
    assert lists[..|onsets|] == lists;
    ConcatSorted(lists, onsets);
  }

  /**
   * The returned list is sorted by start time, is a permutation of the emitted
   * notes, keeps emission order among equal start times, and equals the emitted
   * list outright when the onsets are ordered.
   */
  lemma TranscribedIsSortedPermutation(regime: Regime, logRatio: LogRatio, onsets: seq<real>, duration: real,
                                       magnitudes: seq<seq<real>>, cap: Option<int>)
    requires |onsets| == |magnitudes|
    ensures SortedByStart(Transcribed(regime, logRatio, onsets, duration, magnitudes, cap))
    ensures multiset(Transcribed(regime, logRatio, onsets, duration, magnitudes, cap))
            == multiset(Emitted(regime, logRatio, onsets, duration, magnitudes, cap, |onsets|))
    ensures forall t :: StartingAt(Transcribed(regime, logRatio, onsets, duration, magnitudes, cap), t)
                        == StartingAt(Emitted(regime, logRatio, onsets, duration, magnitudes, cap, |onsets|), t)
    ensures NonDecreasingTimes(onsets) ==>
              Transcribed(regime, logRatio, onsets, duration, magnitudes, cap)
              == Emitted(regime, logRatio, onsets, duration, magnitudes, cap, |onsets|)
  {
    var emitted := Emitted(regime, logRatio, onsets, duration, magnitudes, cap, |onsets|);
    SortByStartSorted(emitted);
    forall t ensures StartingAt(SortByStart(emitted), t) == StartingAt(emitted, t) {
      SortByStartStable(emitted, t);
    }
    if NonDecreasingTimes(onsets) {
      EmittedInOrder(regime, logRatio, onsets, duration, magnitudes, cap);
      SortByStartKeepsSorted(emitted);
    }
  }

  /** The returned list holds exactly the emitted notes. */
  lemma TranscribedMembers(regime: Regime, logRatio: LogRatio, onsets: seq<real>, duration: real,
                           magnitudes: seq<seq<real>>, cap: Option<int>, n: Note)
    requires |onsets| == |magnitudes|
    ensures n in Transcribed(regime, logRatio, onsets, duration, magnitudes, cap)
            <==> n in Emitted(regime, logRatio, onsets, duration, magnitudes, cap, |onsets|)
  {
    var emitted := Emitted(regime, logRatio, onsets, duration, magnitudes, cap, |onsets|);
    SortByStartSorted(emitted);
    assert n in SortByStart(emitted) <==> n in multiset(SortByStart(emitted));
    assert n in emitted <==> n in multiset(emitted);
  }

  /** Every returned note is the note of an accepted interior peak of some segment. */
  lemma TranscribedNoteOrigin(regime: Regime, logRatio: LogRatio, onsets: seq<real>, duration: real,
                              magnitudes: seq<seq<real>>, cap: Option<int>)
    requires |onsets| == |magnitudes|
    ensures forall n :: n in Transcribed(regime, logRatio, onsets, duration, magnitudes, cap) ==>
              exists i: nat, p: nat :: i < |onsets| && 1 <= p < |magnitudes[i]| - 1
                && Accepts(regime, logRatio, magnitudes[i], p)
                && n == NoteFor(regime, logRatio, onsets[i], SegmentEnd(onsets, duration, i), magnitudes[i], p)
  {
    EmittedMembers(regime, logRatio, onsets, duration, magnitudes, cap, |onsets|);
    forall n | n in Transcribed(regime, logRatio, onsets, duration, magnitudes, cap)
      ensures exists i: nat, p: nat :: i < |onsets| && 1 <= p < |magnitudes[i]| - 1
                && Accepts(regime, logRatio, magnitudes[i], p)
                && n == NoteFor(regime, logRatio, onsets[i], SegmentEnd(onsets, duration, i), magnitudes[i], p)
    {
      TranscribedMembers(regime, logRatio, onsets, duration, magnitudes, cap, n);
      var i :| 0 <= i < |onsets|
               && n in SegmentNotes(regime, logRatio, onsets[i], SegmentEnd(onsets, duration, i), magnitudes[i], cap);
      var end := SegmentEnd(onsets, duration, i);
      SegmentNoteShape(regime, logRatio, onsets[i], end, magnitudes[i], cap, n);
      var p: nat :| 1 <= p < |magnitudes[i]| - 1 && Accepts(regime, logRatio, magnitudes[i], p)
                    && n == NoteFor(regime, logRatio, onsets[i], end, magnitudes[i], p);
    }
  }

  /** Conversely, every kept peak that passes the velocity test yields its note in the returned list. */
  lemma TranscribedNoteComplete(regime: Regime, logRatio: LogRatio, onsets: seq<real>, duration: real,
                                magnitudes: seq<seq<real>>, cap: Option<int>, i: nat, k: nat)
    requires |onsets| == |magnitudes|
    requires i < |onsets| && k < |SegmentPeaks(magnitudes[i], cap)|
    requires Accepts(regime, logRatio, magnitudes[i], SegmentPeaks(magnitudes[i], cap)[k])
    ensures NoteFor(regime, logRatio, onsets[i], SegmentEnd(onsets, duration, i), magnitudes[i],
                    SegmentPeaks(magnitudes[i], cap)[k])
            in Transcribed(regime, logRatio, onsets, duration, magnitudes, cap)
  {
    var end := SegmentEnd(onsets, duration, i);
    var peaks := SegmentPeaks(magnitudes[i], cap);
    var n := NoteFor(regime, logRatio, onsets[i], end, magnitudes[i], peaks[k]);
    PeakNotesMembers(regime, logRatio, onsets[i], end, magnitudes[i], peaks);
    assert n in SegmentNotes(regime, logRatio, onsets[i], end, magnitudes[i], cap);
    EmittedMembers(regime, logRatio, onsets, duration, magnitudes, cap, |onsets|);
    TranscribedMembers(regime, logRatio, onsets, duration, magnitudes, cap, n);
  }

  /**
   * On the 88-bin vocal grid every returned note lies between MIDI 22 and 107 (the
   * first and last bins are never peaks) and carries a weighted velocity between 32
   * and 126: above the threshold 42 before weighting, and the weight 3/4 .. below 1.
   */
  lemma VocalNoteRange(logRatio: LogRatio, onsets: seq<real>, duration: real,
                       magnitudes: seq<seq<real>>, cap: Option<int>)
    requires |onsets| == |magnitudes|
    requires forall i :: 0 <= i < |magnitudes| ==> |magnitudes[i]| == BinCount(Vocal)
    ensures forall n :: n in Transcribed(Vocal, logRatio, onsets, duration, magnitudes, cap) ==>
              LowestPitch + 1 <= n.pitch <= HighestPitch - 1 && 32 <= n.velocity <= 126
  {
    TranscribedNoteOrigin(Vocal, logRatio, onsets, duration, magnitudes, cap);
    forall n | n in Transcribed(Vocal, logRatio, onsets, duration, magnitudes, cap)
      ensures LowestPitch + 1 <= n.pitch <= HighestPitch - 1 && 32 <= n.velocity <= 126
    {
      var i: nat, p: nat :| i < |onsets| && 1 <= p < |magnitudes[i]| - 1
                            && Accepts(Vocal, logRatio, magnitudes[i], p)
                            && n == NoteFor(Vocal, logRatio, onsets[i], SegmentEnd(onsets, duration, i), magnitudes[i], p);
      var v := PeakVelocity(logRatio, magnitudes[i], p);
      assert 42 < v <= 127;
      assert n.velocity == VocalWeighted(v, p);
    }
  }

  /**
   * On the 176-bin non-vocal grid every returned note lies between MIDI 21 and 108
   * and keeps its unweighted velocity, which is above the threshold 63.
   */
  lemma NonVocalNoteRange(logRatio: LogRatio, onsets: seq<real>, duration: real,
                          magnitudes: seq<seq<real>>, cap: Option<int>)
    requires |onsets| == |magnitudes|
    requires forall i :: 0 <= i < |magnitudes| ==> |magnitudes[i]| == BinCount(NonVocal)
    ensures forall n :: n in Transcribed(NonVocal, logRatio, onsets, duration, magnitudes, cap) ==>
              LowestPitch <= n.pitch <= HighestPitch && 64 <= n.velocity <= 127
  {
    TranscribedNoteOrigin(NonVocal, logRatio, onsets, duration, magnitudes, cap);
    forall n | n in Transcribed(NonVocal, logRatio, onsets, duration, magnitudes, cap)
      ensures LowestPitch <= n.pitch <= HighestPitch && 64 <= n.velocity <= 127
    {
      var i: nat, p: nat :| i < |onsets| && 1 <= p < |magnitudes[i]| - 1
                            && Accepts(NonVocal, logRatio, magnitudes[i], p)
                            && n == NoteFor(NonVocal, logRatio, onsets[i], SegmentEnd(onsets, duration, i), magnitudes[i], p);
      assert n.velocity == PeakVelocity(logRatio, magnitudes[i], p);
    }
  }

  /** Strictly increasing onsets that all precede the end of the signal give every returned note a positive duration. */
  lemma TranscribedDurationsPositive(regime: Regime, logRatio: LogRatio, onsets: seq<real>, duration: real,
                                     magnitudes: seq<seq<real>>, cap: Option<int>)
    requires |onsets| == |magnitudes|
    requires StrictlyIncreasingTimes(onsets)
    requires forall a :: 0 <= a < |onsets| ==> onsets[a] < duration
    ensures forall n :: n in Transcribed(regime, logRatio, onsets, duration, magnitudes, cap) ==> n.duration > 0.0
  {
    TranscribedNoteOrigin(regime, logRatio, onsets, duration, magnitudes, cap);
    forall n | n in Transcribed(regime, logRatio, onsets, duration, magnitudes, cap)
      ensures n.duration > 0.0
    {
      var i: nat, p: nat :| i < |onsets| && 1 <= p < |magnitudes[i]| - 1
                            && Accepts(regime, logRatio, magnitudes[i], p)
                            && n == NoteFor(regime, logRatio, onsets[i], SegmentEnd(onsets, duration, i), magnitudes[i], p);
      SegmentsHavePositiveLength(onsets, duration, i);
    }
  }

  /** No onsets: no segments, no notes. */
  lemma NoOnsetsNoNotes(regime: Regime, logRatio: LogRatio, duration: real, cap: Option<int>)
    ensures Transcribed(regime, logRatio, [], duration, [], cap) == []
  {
  }
}
