/**
 * vocal_transform, non_vocal_transform and audio_to_notes_polyphonic of
 * converter.py, from the analysis onwards: the segment loop, the peak loop and
 * the final sort, each proved to compute the Transcription functions.
 *
 * The analysis librosa performs on the audio file (tempo, onset times, signal
 * duration, constant-Q magnitudes, time-to-frame conversion) is an input record.
 */
module Converter {
  import opened Options
  import opened Velocity
  import opened Peaks
  import opened PeakCap
  import opened Segments
  import opened Notes
  import opened Regimes
  import opened Transcription

  /** What vocal_transform obtains from librosa: 88 CQT bins, one per semitone. */
  datatype VocalAnalysis = VocalAnalysis(
    bpm: real,
    onsets: seq<real>,
    duration: real,
    cqt: Matrix,
    toFrame: real -> nat)

  /**
   * What non_vocal_transform obtains from librosa: 176 CQT bins of the signal and
   * of its pre-emphasised copy, and the normalise-and-mix step applied to the two
   * frame slices of a segment.
   */
  datatype NonVocalAnalysis = NonVocalAnalysis(
    bpm: real,
    onsets: seq<real>,
    duration: real,
    cqt: Matrix,
    cqtPre: Matrix,
    toFrame: real -> nat,
    blend: (Matrix, Matrix) -> Matrix)

  /** np.sum(C[:, start_frame:end_frame], axis=1) for segment i. */
  function VocalMagnitude(a: VocalAnalysis, i: nat): (m: seq<real>)
    requires i < |a.onsets|
    ensures |m| == |a.cqt|
  {
    RangeMagnitude(a.cqt, a.toFrame(a.onsets[i]), a.toFrame(SegmentEnd(a.onsets, a.duration, i)))
  }

  function VocalMagnitudes(a: VocalAnalysis): (ms: seq<seq<real>>)
    ensures |ms| == |a.onsets|
  {
    seq(|a.onsets|, i requires 0 <= i < |a.onsets| => VocalMagnitude(a, i))
  }

  /** np.sum of the mixed slices of segment i. */
  function NonVocalMagnitude(a: NonVocalAnalysis, i: nat): seq<real>
    requires i < |a.onsets|
  {
    var lo := a.toFrame(a.onsets[i]);
    var hi := a.toFrame(SegmentEnd(a.onsets, a.duration, i));
    RowSums(a.blend(SliceColumns(a.cqt, lo, hi), SliceColumns(a.cqtPre, lo, hi)))
  }

  function NonVocalMagnitudes(a: NonVocalAnalysis): (ms: seq<seq<real>>)
    ensures |ms| == |a.onsets|
  {
    seq(|a.onsets|, i requires 0 <= i < |a.onsets| => NonVocalMagnitude(a, i))
  }

  /** The `number_of_notes` budget applied to the peaks of one segment (converter.py lines 44-46 and 98-100). */
  method LimitPeaks(peaks: seq<nat>, magnitude: seq<real>, numberOfNotes: Option<int>) returns (kept: seq<nat>)
    requires IndicesIn(peaks, magnitude)
    ensures kept == CapPeaks(peaks, magnitude, numberOfNotes)
  {
    kept := peaks;
    if numberOfNotes.Some? && numberOfNotes.value != 0 && |peaks| > numberOfNotes.value {
      var order := RankByMagnitude(magnitude, peaks);
      kept := PyPrefix(order, numberOfNotes.value);
    }
  }

  /** The `for peak in peaks` loop of vocal_transform: appends the notes of one segment. */
  method AppendVocalNotes(notes: seq<Note>, startTime: real, endTime: real, magnitude: seq<real>,
                          peaks: seq<nat>, logRatio: LogRatio)
    returns (out: seq<Note>)
    requires IndicesIn(peaks, magnitude)
    ensures out == notes + PeakNotes(Vocal, logRatio, startTime, endTime, magnitude, peaks)
  {
    out := notes;
    for j := 0 to |peaks|
      invariant out == notes + PeakNotes(Vocal, logRatio, startTime, endTime, magnitude, peaks[..j])
    {
      var peak := peaks[j];
      var midiNote := peak + LowestPitch;
      var velocity := ScaleVelocity(logRatio, magnitude[peak], MaxMagnitude(magnitude));
      if velocity > 42 {
        out := out + [Note(startTime, midiNote, endTime - startTime, VocalWeighted(velocity, peak))];
      }
      assert peaks[..j + 1][..j] == peaks[..j];
    }
    assert peaks[..|peaks|] == peaks;
  }

  /** The `for peak in peaks` loop of non_vocal_transform: appends the notes of one segment. */
  method AppendNonVocalNotes(notes: seq<Note>, startTime: real, endTime: real, magnitude: seq<real>,
                             peaks: seq<nat>, logRatio: LogRatio)
    returns (out: seq<Note>)
    requires IndicesIn(peaks, magnitude)
    ensures out == notes + PeakNotes(NonVocal, logRatio, startTime, endTime, magnitude, peaks)
  {
    out := notes;
    for j := 0 to |peaks|
      invariant out == notes + PeakNotes(NonVocal, logRatio, startTime, endTime, magnitude, peaks[..j])
    {
      var peak := peaks[j];
      var midiNote := peak / 2 + LowestPitch;
      var velocity := ScaleVelocity(logRatio, magnitude[peak], MaxMagnitude(magnitude));
      if velocity > 63 {
        out := out + [Note(startTime, midiNote, endTime - startTime, velocity)];
      }
      assert peaks[..j + 1][..j] == peaks[..j];
    }
    assert peaks[..|peaks|] == peaks;
  }

  /** One pass of vocal_transform's segment loop (converter.py lines 30-57). */
  method VocalSegment(a: VocalAnalysis, i: nat, numberOfNotes: Option<int>, logRatio: LogRatio, notes: seq<Note>)
    returns (out: seq<Note>)
    requires i < |a.onsets|
    ensures out == notes + SegmentNotes(Vocal, logRatio, a.onsets[i], SegmentEnd(a.onsets, a.duration, i),
                                        VocalMagnitude(a, i), numberOfNotes)
  {
    var startTime := a.onsets[i];
    var endTime := SegmentEnd(a.onsets, a.duration, i);
    var startFrame := a.toFrame(startTime);
    var endFrame := a.toFrame(endTime);
    var noteCqt := SliceColumns(a.cqt, startFrame, endFrame);
    var magnitude := RowSums(noteCqt);
    var peaks := FindPeaks(magnitude);
    peaks := LimitPeaks(peaks, magnitude, numberOfNotes);
    out := AppendVocalNotes(notes, startTime, endTime, magnitude, peaks, logRatio);
  }

  /** One pass of non_vocal_transform's segment loop (converter.py lines 78-110). */
  method NonVocalSegment(a: NonVocalAnalysis, i: nat, numberOfNotes: Option<int>, logRatio: LogRatio, notes: seq<Note>)
    returns (out: seq<Note>)
    requires i < |a.onsets|
    ensures out == notes + SegmentNotes(NonVocal, logRatio, a.onsets[i], SegmentEnd(a.onsets, a.duration, i),
                                        NonVocalMagnitude(a, i), numberOfNotes)
  {
    var startTime := a.onsets[i];
    var endTime := SegmentEnd(a.onsets, a.duration, i);
    var startFrame := a.toFrame(startTime);
    var endFrame := a.toFrame(endTime);
    var noteCqt := SliceColumns(a.cqt, startFrame, endFrame);
    var noteCqtPre := SliceColumns(a.cqtPre, startFrame, endFrame);
    var noteCqtMixed := a.blend(noteCqt, noteCqtPre);
    var magnitude := RowSums(noteCqtMixed);
    var peaks := FindPeaks(magnitude);
    peaks := LimitPeaks(peaks, magnitude, numberOfNotes);
    out := AppendNonVocalNotes(notes, startTime, endTime, magnitude, peaks, logRatio);
  }

  /** vocal_transform after the analysis. */
  method VocalTransform(a: VocalAnalysis, numberOfNotes: Option<int>, logRatio: LogRatio)
    returns (notes: seq<Note>, bpm: real)
    ensures notes == Transcribed(Vocal, logRatio, a.onsets, a.duration, VocalMagnitudes(a), numberOfNotes)
    ensures bpm == a.bpm
  {
    ghost var magnitudes := VocalMagnitudes(a);
    notes := [];
    for i := 0 to |a.onsets|
      invariant notes == Emitted(Vocal, logRatio, a.onsets, a.duration, magnitudes, numberOfNotes, i)
    {
      assert magnitudes[i] == VocalMagnitude(a, i);
      EmittedStep(Vocal, logRatio, a.onsets, a.duration, magnitudes, numberOfNotes, i);
      notes := VocalSegment(a, i, numberOfNotes, logRatio, notes);
    }
    notes := SortByStart(notes);
    bpm := a.bpm;
  }

  /** non_vocal_transform after the analysis and the normalise-and-mix step. */
  method NonVocalTransform(a: NonVocalAnalysis, numberOfNotes: Option<int>, logRatio: LogRatio)
    returns (notes: seq<Note>, bpm: real)
    ensures notes == Transcribed(NonVocal, logRatio, a.onsets, a.duration, NonVocalMagnitudes(a), numberOfNotes)
    ensures bpm == a.bpm
  {
    ghost var magnitudes := NonVocalMagnitudes(a);
    notes := [];
    for i := 0 to |a.onsets|
      invariant notes == Emitted(NonVocal, logRatio, a.onsets, a.duration, magnitudes, numberOfNotes, i)
    {
      assert magnitudes[i] == NonVocalMagnitude(a, i);
      EmittedStep(NonVocal, logRatio, a.onsets, a.duration, magnitudes, numberOfNotes, i);
      notes := NonVocalSegment(a, i, numberOfNotes, logRatio, notes);
    }
    notes := SortByStart(notes);
    bpm := a.bpm;
  }

  /** A vocal segment whose end frame is not after its start frame contributes no notes. */
  lemma EmptyVocalSegmentIsSilent(a: VocalAnalysis, i: nat, cap: Option<int>, logRatio: LogRatio)
    requires i < |a.onsets|
    requires a.toFrame(SegmentEnd(a.onsets, a.duration, i)) <= a.toFrame(a.onsets[i])
    ensures SegmentNotes(Vocal, logRatio, a.onsets[i], SegmentEnd(a.onsets, a.duration, i),
                         VocalMagnitudes(a)[i], cap) == []
  {
    var lo, hi := a.toFrame(a.onsets[i]), a.toFrame(SegmentEnd(a.onsets, a.duration, i));
    EmptyRangeIsSilent(a.cqt, lo, hi);
    FlatSegmentIsSilent(Vocal, logRatio, a.onsets[i], SegmentEnd(a.onsets, a.duration, i),
                        VocalMagnitudes(a)[i], cap, 0.0);
  }

  /** With librosa's 88-bin vocal CQT, vocal_transform returns pitches 22..107 and velocities 32..126. */
  lemma VocalTransformRanges(a: VocalAnalysis, cap: Option<int>, logRatio: LogRatio)
    requires |a.cqt| == BinCount(Vocal)
    ensures forall n :: n in Transcribed(Vocal, logRatio, a.onsets, a.duration, VocalMagnitudes(a), cap) ==>
              LowestPitch + 1 <= n.pitch <= HighestPitch - 1 && 32 <= n.velocity <= 126
  {
    VocalNoteRange(logRatio, a.onsets, a.duration, VocalMagnitudes(a), cap);
  }

  /**
   * With the 176-bin non-vocal CQT and a mixing step that keeps one row per bin,
   * non_vocal_transform returns pitches 21..108 and velocities 64..127.
   */
  lemma NonVocalTransformRanges(a: NonVocalAnalysis, cap: Option<int>, logRatio: LogRatio)
    requires |a.cqt| == BinCount(NonVocal)
    requires forall m: Matrix, m': Matrix :: |a.blend(m, m')| == |m|
    ensures forall n :: n in Transcribed(NonVocal, logRatio, a.onsets, a.duration, NonVocalMagnitudes(a), cap) ==>
              LowestPitch <= n.pitch <= HighestPitch && 64 <= n.velocity <= 127
  {
    var ms := NonVocalMagnitudes(a);
    forall i | 0 <= i < |ms| ensures |ms[i]| == BinCount(NonVocal) {
      var lo, hi := a.toFrame(a.onsets[i]), a.toFrame(SegmentEnd(a.onsets, a.duration, i));
      assert |a.blend(SliceColumns(a.cqt, lo, hi), SliceColumns(a.cqtPre, lo, hi))| == |a.cqt|;
    }
    NonVocalNoteRange(logRatio, a.onsets, a.duration, ms, cap);
  }

  /** audio_to_notes_polyphonic: "vocal" and "non_vocal" run their transform; any other type gives None. */
  method AudioToNotesPolyphonic(kind: string, vocal: VocalAnalysis, nonVocal: NonVocalAnalysis,
                                numberOfNotes: Option<int>, logRatio: LogRatio)
    returns (result: Option<(seq<Note>, real)>)
    ensures SelectRegime(kind) == None ==> result == None
    ensures SelectRegime(kind) == Some(Vocal) ==>
              result == Some((Transcribed(Vocal, logRatio, vocal.onsets, vocal.duration,
                                          VocalMagnitudes(vocal), numberOfNotes), vocal.bpm))
    ensures SelectRegime(kind) == Some(NonVocal) ==>
              result == Some((Transcribed(NonVocal, logRatio, nonVocal.onsets, nonVocal.duration,
                                          NonVocalMagnitudes(nonVocal), numberOfNotes), nonVocal.bpm))
  {
    if kind == "vocal" {
      var notes, bpm := VocalTransform(vocal, numberOfNotes, logRatio);
      result := Some((notes, bpm));
    } else if kind == "non_vocal" {
      var notes, bpm := NonVocalTransform(nonVocal, numberOfNotes, logRatio);
      result := Some((notes, bpm));
    } else {
      result := None;
    }
  }

}
