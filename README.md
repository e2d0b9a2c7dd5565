# Audio_to_MIDI note extraction, modelled in Dafny

This project models the note-extraction core of `converter.py` in the Audio_to_MIDI
converter. It covers what happens once librosa has analysed the audio.

The core cuts the signal into segments at the detected onsets. For each segment it:
- sums the constant-Q magnitudes over the segment's frames, one total per pitch bin;
- finds the interior peaks of that vector (scipy's `find_peaks`);
- optionally keeps only the `number_of_notes` loudest peaks;
- maps every peak to a MIDI pitch and a loudness (`scale_velocity`);
- keeps the notes above a regime-specific threshold.

The notes of all segments are then sorted by start time. Two regimes exist:
- **vocal**: 88 bins, one per semitone, threshold 42, register weighting;
- **non-vocal**: 176 bins, two per semitone, a blend of the signal and its pre-emphasised copy, threshold 63.

`audio_to_notes_polyphonic` selects the regime by name. `notes_to_midi` converts start times and durations from seconds to beats.

The model has three layers:
- **Functions** state what the code computes. `Velocity`, `Peaks`, `PeakCap`, `Segments`, `Regimes` and `Notes` cover the pieces. `Transcription` covers one segment (`SegmentNotes`), the emission-order list (`Emitted`) and the returned list (`Transcribed`).
- **Methods** in `Converter` and `Midi` keep the source's loops: the `for i` loop over onsets, the nested `for peak` loop that appends to `notes`, the reassignment of `peaks` under the budget, the final sort and the `addNote` loop. Each method is proved to compute the corresponding function.
- **Lemmas** prove, over all inputs, what the source promises: the velocity range, the exact characterisation of `find_peaks`, the budget keeping the loudest peaks, the pitch and velocity ranges, start times and durations, the stable sort, and the beat conversion.

Modelling choices:
- Magnitudes, times and the tempo are `real`.
- `log1p(m) / log1p(M)` is a function parameter, `logRatio`. `LogRatioLaws` states two laws of it. Only `Velocity.ScaleVelocityUnclamped` and the second clause of `Transcription.AcceptsLoudestRejectsSilent` (the loudest positive bin is accepted) assume them. The range lemmas hold for any `logRatio`, because the clamp bounds every velocity.
- librosa's `time_to_frames` is a field of the analysis record (`toFrame`).
- The non-vocal normalise-and-mix step of converter.py lines 89-91 is a field of the analysis record (`blend`).
- Python's `int()` is truncation toward zero (`Trunc`).
- The vocal weight `v * (peak / 176 / 2 + 0.75)` is computed exactly in integers as `v * (peak + 264) / 352`. `VocalWeightIsExact` proves this equals the floor of the real-number formula.
- `number_of_notes` is an `Option<int>`. Its Python truthiness is kept: `None` and `0` mean no budget. A negative value is truthy, and `[:k]` then drops `|k|` peaks.

Two details of the vocal weighting the model follows as written:
- The code applies `int()` (truncation toward zero) to the weighted vocal velocity; it does not round.
- The code's weight is `peak / 352 + 0.75`. The comment at converter.py:56 says it spans 0.75 to 1.25. On the 88-bin vocal grid an interior peak is at most bin 86, so the weight stays below 1. `VocalWeighted` and `Regimes.WeightedBounds` prove the emitted velocity is always below a positive pre-weight velocity.

## Model

| member | source | states |
|---|---|---|
| Velocity.Trunc | converter.py:11 | `int()` of a float: for x ≥ 0 the result is the floor, for x < 0 minus the floor of −x, each within one of x |
| Velocity.ClampVelocity | converter.py:15 | `max(0, min(127, v))` lies in [0, 127], is v inside that range, 0 below it and 127 above it |
| Velocity.ScaleVelocity | converter.py:8-15 | the velocity is in [0, 127]; it is 0 when the magnitude is ≤ 0; it is 127 when magnitude == max > 0 (log ratio 1) |
| Velocity.ScaleVelocityUnclamped | converter.py:10-15 | under the log1p laws, for 0 < m ≤ M the clamp never engages: the velocity is exactly floor(ratio · 127), and 127 at the maximum |
| Peaks.PlateauExit | converter.py:41 | scipy's look-ahead along a run of equal samples stops at the first differing sample (or the last index), every sample before it equal |
| Peaks.ScanPeaks | converter.py:41 | scipy's left-to-right scan from position i, the definition behind `find_peaks`; its output is characterised by `ScanBounds`, `ScanIncreasing`, `ScanSound`, `ScanComplete` and, from position 1, `FindPeaksSpec` |
| Peaks.FindPeaks | converter.py:41 | `find_peaks(magnitude)[0]`: every reported index is interior (1 ≤ p < n − 1) |
| Peaks.ScanBounds | converter.py:41 | every index the scan reports from position i on lies in [i, n − 1) |
| Peaks.ScanIncreasing | converter.py:41 | the scan reports indices in strictly increasing order |
| Peaks.ScanSound | converter.py:41 | every reported index is the middle (rounded down) of a plateau that rises on the left and falls on the right |
| Peaks.ScanComplete | converter.py:41 | every such plateau starting at or after the scan position is reported by its middle index |
| Peaks.ExitAtPlateauEnd | converter.py:41 | the look-ahead from the start of a plateau peak stops just past its end |
| Peaks.ExitBeforePlateau | converter.py:41 | when the scan reports the plateau starting at i, its jump past that plateau does not skip the start of any later plateau peak |
| Peaks.FindPeaksSpec | converter.py:41 | the reported indices are strictly increasing and are exactly the plateau-peak middles (both directions) |
| Peaks.StrictLocalMaxIsPeak | converter.py:41 | every index whose two neighbours are strictly smaller is reported |
| Peaks.NoPlateausPeaksExact | converter.py:41 | without equal neighbours, an index is reported iff it is a strict local maximum |
| Peaks.ConstantHasNoPeaks | converter.py:38-41 | a constant vector (all zero, say) has no peaks |
| Peaks.UnimodalHasOnePeak | converter.py:41 | a strictly rising then strictly falling vector has exactly its summit as peak |
| PeakCap.PyPrefix | converter.py:45 | Python's `s[:k]` is a prefix of s of length min(k, \|s\|), or \|s\| + k (at least 0) for negative k |
| PeakCap.Insert | converter.py:45 | one insertion step of the ranking keeps valid indices and adds exactly one element |
| PeakCap.InsertDescending | converter.py:45 | inserting into a ranking ordered loudest first keeps it ordered loudest first |
| PeakCap.InsertAtMost | converter.py:45 | insertion keeps every entry at most a bound that all inputs respect |
| PeakCap.ConsDescending | converter.py:45 | a peak at least as loud as every entry of an ordered ranking can head it |
| PeakCap.RankByMagnitude | converter.py:45 | `np.argsort(magnitude[peaks])[::-1]` applied to peaks: a permutation of the peaks ordered by non-increasing magnitude |
| PeakCap.CapApplies | converter.py:44 | the guard `number_of_notes and len(peaks) > number_of_notes` (also converter.py line 98): `None` and `0` are falsy, any other budget applies when there are more peaks; `CapPeaks`, `CapKeepsLoudest` and `NoBudgetKeepsAllPeaks` state what it selects |
| PeakCap.CapPeaks | converter.py:44-46 | the kept peaks are valid indices drawn from the found peaks (sub-multiset); without a truthy budget exceeded they are the peaks unchanged |
| PeakCap.SplitDominates | converter.py:45 | in the ordered ranking, every entry before position k is at least as loud as every entry from k on |
| PeakCap.CapKeepsLoudest | converter.py:44-46 | with 0 < k < #peaks exactly k peaks are kept, loudest first, and every kept magnitude is ≥ every dropped one |
| PeakCap.NegativeCapDropsQuietest | converter.py:44-46 | a negative budget k keeps the \|peaks\| + k loudest peaks (a prefix of the ranking) |
| Segments.SegmentStart | converter.py:30 | segment i starts at onset i (also converter.py line 78); `SegmentsHavePositiveLength` states that it precedes the segment's end |
| Segments.SegmentEnd | converter.py:31 | with non-decreasing onsets inside the signal, segment i ends no earlier than its onset and no later than the duration; with strictly increasing onsets before the duration, strictly after its onset |
| Segments.SegmentsHavePositiveLength | converter.py:30-31 | strictly increasing onsets that precede the duration give every segment a positive length |
| Segments.RowsNonNegative | converter.py:39 | every row of non-negative magnitudes has a non-negative sum |
| Segments.Sum | converter.py:39 | the total of one bin's frames in `np.sum(…, axis=1)`; `SumAppend`, `SumOfZeros`, `SumNonNegative` and `AdjacentRangesAdd` state its laws |
| Segments.SumAppend | converter.py:39 | the sum of a concatenation is the sum of the parts |
| Segments.SumOfZeros | converter.py:39 | the sum of zeros is zero |
| Segments.SumNonNegative | converter.py:39 | the sum of non-negative values is non-negative |
| Segments.SliceRow | converter.py:38 | numpy's `row[lo:hi]` clamps both bounds to the row: its length and its elements row[lo + k] |
| Segments.SliceColumns | converter.py:38 | `C[:, lo:hi]` keeps every bin; each row is no longer than before, has hi − lo frames when the range lies inside it, is empty when hi ≤ lo, and its k-th frame is frame lo + k of the row |
| Segments.RowSums | converter.py:39 | `np.sum(m, axis=1)` has one total per bin; an empty row totals 0, a row of non-negative magnitudes a non-negative total |
| Segments.RangeMagnitude | converter.py:38-39 | the segment magnitude vector has one entry per CQT bin |
| Segments.EmptyRangeIsSilent | converter.py:38-39 | an empty frame range (end ≤ start) gives zero in every bin |
| Segments.ZeroRangeIsSilent | converter.py:38-39 | an all-zero frame range gives zero in every bin |
| Segments.RangeMagnitudeNonNegative | converter.py:23 | non-negative CQT magnitudes (`np.abs`) give non-negative bin totals (also converter.py lines 38-39) |
| Segments.AdjacentRangesAdd | converter.py:38-39 | the totals of two adjacent frame ranges add up to the total of their union |
| Regimes.BinCount | converter.py:23 | `n_bins`: 88 for the vocal CQT and 176 for the non-vocal one (also converter.py line 71); `GridSpansPiano` states what the grid covers |
| Regimes.GridSpansPiano | converter.py:50 | bin 0 is MIDI 21 (A0) and the last bin is MIDI 108 (C8) in both regimes, and the non-vocal grid maps bins 2k and 2k + 1 to the vocal grid's bin k (also converter.py line 104) |
| Regimes.Threshold | converter.py:55 | the velocity a note must exceed: 42 for vocal, 63 for non-vocal (also converter.py line 109); `AcceptsLoudestRejectsSilent` and the range lemmas state its effect |
| Regimes.PitchOf | converter.py:50 | pitch = peak + 21 (vocal) or peak // 2 + 21 (non-vocal); at least 21, and at most 108 for bins of the regime's grid (also converter.py line 104) |
| Regimes.VocalWeighted | converter.py:56-57 | `min(int(v · (peak/176/2 + 0.75)), 127)` lies in [0, 127], is ≥ ⌊3v/4⌋ for v ≤ 127, and is < v for v > 0 on the 88-bin grid |
| Regimes.WeightedBounds | converter.py:56 | v · (peak + 264) / 352 is at least ⌊3v/4⌋, at most v for peak < 88, and below v for v > 0 and peak < 88 |
| Regimes.VocalWeightIsExact | converter.py:56-57 | the integer form equals the floor of v · (peak/176/2 + 0.75) computed exactly |
| Regimes.EmittedVelocity | converter.py:57 | the stored velocity is non-negative and at most 127 when the pre-weight velocity is (also converter.py line 110) |
| Regimes.RegimeName | converter.py:117-119 | the `type` strings "vocal" and "non_vocal" of the two branches; `SelectRegime` and `SelectRegimeByName` state that each name selects its regime and no other name selects one |
| Regimes.SelectRegime | converter.py:116-123 | a regime is selected iff the name is "vocal" or "non_vocal", and the selected regime carries that name |
| Regimes.SelectRegimeByName | converter.py:117-120 | each regime is selected by its own name |
| Transcription.MaxMagnitude | converter.py:53 | `np.max(magnitude)` bounds every entry and is attained (also converter.py line 107) |
| Transcription.PeakVelocity | converter.py:53 | the velocity of a peak is at most 127 (also converter.py line 107) |
| Transcription.Accepts | converter.py:55 | `velocity > 42` / `velocity > 63` for a peak (also converter.py line 109); its effect is stated by `AcceptsLoudestRejectsSilent` and `PeakNotesMembers` |
| Transcription.AcceptsLoudestRejectsSilent | converter.py:53-55 | a bin with no energy is never accepted; under the log1p laws the segment's loudest bin, if positive, always is (also converter.py lines 107-109) |
| Transcription.NoteFor | converter.py:57 | the tuple `(start_time, midi_note, end_time - start_time, velocity)` (also converter.py line 110): its pitch is at least 21 and at most 108 for a bin of the grid, its velocity in [0, 127] |
| Transcription.PeakNotes | converter.py:48-57 | the peak loop appends at most one note per peak (also converter.py lines 102-110) |
| Transcription.SegmentPeaks | converter.py:41-46 | the peaks left after the budget are interior indices of the magnitude vector (also converter.py lines 95-100) |
| Transcription.SegmentNotes | converter.py:38-57 | the notes one segment contributes, in emission order (also converter.py lines 86-110); `PeakNotesMembers`, `SegmentNoteShape`, `SegmentNotesTiming` and `SegmentRespectsBudget` state what they are |
| Transcription.Emitted | converter.py:28-57 | the `notes` list after the first n segments, before the sort (also converter.py lines 76-110); `EmittedStep`, `EmittedMembers` and `EmittedInOrder` state its contents and order |
| Transcription.SegmentLists | converter.py:29 | one note list per onset (also converter.py line 77) |
| Transcription.EmittedStep | converter.py:29-57 | one more segment appends its notes to the list so far (also converter.py lines 77-110) |
| Transcription.PeakNotesMembers | converter.py:48-57 | a note is appended iff some kept peak passes the threshold and the note is that peak's note (also converter.py lines 102-110) |
| Transcription.FlatSegmentIsSilent | converter.py:38-57 | a constant (e.g. all-zero) magnitude vector yields no notes |
| Transcription.SegmentRespectsBudget | converter.py:44-46 | with a positive budget k a segment yields at most k notes |
| Transcription.NoBudgetKeepsAllPeaks | converter.py:44 | with `None` or 0 every found peak is considered |
| Transcription.SegmentNoteShape | converter.py:48-57 | every note of a segment starts at the segment start, lasts the segment length and comes from an accepted interior bin (also converter.py lines 102-110) |
| Transcription.SegmentNotesTiming | converter.py:57 | every note of a segment starts at the segment start (also converter.py line 110) |
| Transcription.EmittedMembers | converter.py:29-57 | a note is in the emitted list iff some segment emitted it (also converter.py lines 77-110) |
| Transcription.EmittedInOrder | converter.py:29 | with non-decreasing onsets the emitted list is already in start order (also converter.py lines 57, 77) |
| Transcription.Transcribed | converter.py:59-61 | the list a transform returns (also converter.py lines 112-114); `TranscribedIsSortedPermutation`, `TranscribedNoteOrigin` and `TranscribedNoteComplete` state that it is the emitted notes sorted stably by start, each from an accepted peak, none missing |
| Transcription.TranscribedIsSortedPermutation | converter.py:59 | the returned list is sorted by start, is a permutation of the emitted notes, keeps emission order among equal starts, and equals the emitted list when onsets are ordered (also converter.py line 112) |
| Transcription.TranscribedMembers | converter.py:59 | sorting neither adds nor loses a note (also converter.py line 112) |
| Transcription.TranscribedNoteOrigin | converter.py:29-59 | every returned note is the note of an accepted interior peak of some segment (also converter.py lines 77-112) |
| Transcription.TranscribedNoteComplete | converter.py:29-59 | every kept peak that passes the threshold yields its note in the returned list (also converter.py lines 77-112) |
| Transcription.VocalNoteRange | converter.py:48-57 | on the 88-bin grid (converter.py line 23) every returned vocal note has pitch 22..107 and velocity 32..126 |
| Transcription.NonVocalNoteRange | converter.py:102-110 | on the 176-bin grid (converter.py line 71) every returned non-vocal note has pitch 21..108 and velocity 64..127 |
| Transcription.TranscribedDurationsPositive | converter.py:30-31 | strictly increasing onsets before the duration give every note a positive duration (also converter.py lines 57, 110) |
| Transcription.NoOnsetsNoNotes | converter.py:28-29 | no onsets give no notes (also converter.py line 59) |
| Notes.StartingAt | converter.py:59 | the notes starting at time t, in order, all start at t |
| Notes.InsertByStart | converter.py:59 | one insertion step of the stable sort adds exactly one note |
| Notes.InsertByStartPermutes | converter.py:59 | the insertion step adds exactly the inserted note (multiset) |
| Notes.InsertByStartSorted | converter.py:59 | inserting into a sorted list keeps it sorted |
| Notes.InsertByStartStable | converter.py:59 | the inserted note goes after every note with the same start |
| Notes.InsertInFrontStable | converter.py:59 | a note earlier than all others goes first, and is last among notes with its own start |
| Notes.InsertAtEnd | converter.py:59 | a note starting no earlier than all others goes at the end |
| Notes.SortByStart | converter.py:59 | `notes.sort(key=start)` keeps the length (also converter.py line 112) |
| Notes.SortByStartSorted | converter.py:59 | the sorted list is ordered by start and a permutation of the input (also converter.py line 112) |
| Notes.SortByStartStable | converter.py:59 | notes with equal start keep their input order (also converter.py line 112) |
| Notes.SortByStartKeepsSorted | converter.py:59 | an already sorted list is unchanged (also converter.py line 112) |
| Notes.Concat | converter.py:57 | the `notes` list the appends build, segment after segment (also converter.py lines 28 and 110); `ConcatStep`, `ConcatMembers` and `ConcatSorted` state that each segment extends it, that it holds exactly the segments' notes, and when it is sorted |
| Notes.ConcatStep | converter.py:57 | appending one more segment's notes extends the joined list (also converter.py line 110) |
| Notes.ConcatMembers | converter.py:57 | a note is in the joined list iff it is in one of the segment lists (also converter.py line 110) |
| Notes.ConcatSorted | converter.py:57 | lists whose notes start at non-decreasing list times join into a sorted list (also converter.py line 110) |
| Converter.VocalMagnitude | converter.py:34-39 | segment i's magnitude vector has one entry per CQT bin |
| Converter.VocalMagnitudes | converter.py:29-39 | one magnitude vector per onset |
| Converter.NonVocalMagnitudes | converter.py:77-93 | one magnitude vector per onset |
| Converter.NonVocalMagnitude | converter.py:86-93 | `np.sum` of the mixed slices `C[:, start_frame:end_frame]` and `C_pre[:, start_frame:end_frame]` of segment i; `NonVocalTransformRanges` states its shape under a shape-keeping `blend` |
| Converter.LimitPeaks | converter.py:44-46 | the imperative budget step computes `CapPeaks` (also converter.py lines 98-100) |
| Converter.AppendVocalNotes | converter.py:48-57 | the vocal `for peak` loop appends exactly `PeakNotes(Vocal, …)` |
| Converter.AppendNonVocalNotes | converter.py:102-110 | the non-vocal `for peak` loop appends exactly `PeakNotes(NonVocal, …)` |
| Converter.VocalSegment | converter.py:30-57 | one vocal segment pass appends exactly that segment's notes |
| Converter.NonVocalSegment | converter.py:78-110 | one non-vocal segment pass appends exactly that segment's notes |
| Converter.VocalTransform | converter.py:28-61 | vocal_transform returns `Transcribed(Vocal, …)` and the detected bpm |
| Converter.NonVocalTransform | converter.py:76-114 | non_vocal_transform returns `Transcribed(NonVocal, …)` and the detected bpm |
| Converter.EmptyVocalSegmentIsSilent | converter.py:34-41 | a vocal segment whose end frame is not after its start frame yields no notes |
| Converter.VocalTransformRanges | converter.py:23-57 | with the 88-bin CQT, every note vocal_transform returns has pitch 22..107 and velocity 32..126 |
| Converter.NonVocalTransformRanges | converter.py:71-110 | with the 176-bin CQT and a shape-keeping blend, every note non_vocal_transform returns has pitch 21..108 and velocity 64..127 |
| Converter.AudioToNotesPolyphonic | converter.py:116-123 | "vocal" and "non_vocal" return their transform's result; any other name returns None |
| Midi.ToBeats | converter.py:133-134 | beats · 60 = seconds · bpm |
| Midi.FromBeats | converter.py:133-134 | the inverse conversion: seconds · bpm = beats · 60 |
| Midi.BeatsRoundTrip | converter.py:133-134 | at a non-zero tempo the two conversions undo each other |
| Midi.ZeroIsBeatZero | converter.py:133 | at a positive tempo time 0 maps to beat 0, and only time 0 does |
| Midi.ToBeatsMonotone | converter.py:133 | at a positive tempo x ≤ y iff beats(x) ≤ beats(y) |
| Midi.ToBeatsAdditive | converter.py:133-134 | the end of a note in beats is its start in beats plus its duration in beats |
| Midi.ToBeatsFacts | converter.py:133-134 | a converted time converts back at a non-zero tempo, and at a positive tempo keeps its sign (≥ 0, > 0) |
| Midi.ToMidiNote | converter.py:131-136 | each note becomes a track 0, channel 0 note with the same pitch and velocity; at a non-zero tempo its beat time and duration convert back to the note's seconds, and at a positive tempo a start ≥ 0 and a duration > 0 are kept |
| Midi.NotesToMidi | converter.py:125-136 | the track's tempo is bpm, with one MIDI note per note, in order |
| Midi.MidiOrderFollowsNoteOrder | converter.py:131-136 | at a positive tempo, notes are sorted by start iff the MIDI notes are sorted by beat |

## Left out

- Audio analysis by librosa (converter.py:18-27, 64-75): loading, onset strength, beat tracking, the constant-Q transforms, onset detection with `delta` and `wait`, `frames_to_time`, `get_duration` and pre-emphasis are foreign library calls. Their results are the fields of `VocalAnalysis` and `NonVocalAnalysis`.
- `time_to_frames` (converter.py:34-35, 82-83) is the function field `toFrame`. Its rounding is not modelled.
- The non-vocal normalise-and-mix step (converter.py:89-91) is the function field `blend`. Its floating-point division by `np.max` is not modelled. That division gives NaN on an all-zero block and raises on an empty slice.
- The logarithm in `scale_velocity` (converter.py:11) is the parameter `logRatio`. Only the laws in `LogRatioLaws` are assumed about it.
- Floating point: magnitudes, times and the tempo are exact reals. Where Python's float arithmetic would round differently at an exact boundary (`int()` of the weighted velocity, the log ratio times 127), the model can differ by one. Float rounding in `np.sum` can also create or break an exact tie between neighbouring bins, so the peaks `find_peaks` reports and the tie order of the ranking can differ too.
- PeakCap.RankByMagnitude: numpy's default `argsort` is not stable in general. The model fixes one tie order (ties: later peak first). CapKeepsLoudest and the other lemmas state only facts that hold for any tie order.
- Creating the `MIDIFile` object (converter.py:126) and writing it with `writeFile` (converter.py:138-139) are file I/O and are not modelled. `Midi.NotesToMidi` builds the track value: its `tempo` is the `addTempo` event at beat 0 (converter.py:127-129), and its `notes` the `addNote` calls.
- `play_midi` (converter.py:141-152) is pygame playback.
- The default arguments of `audio_to_notes_polyphonic` (converter.py:116: `type="vocal"`, `number_of_notes=None`, `delta=0.03`) are not modelled: `Converter.AudioToNotesPolyphonic` takes every argument explicitly, and `delta` belongs to the onset detection, which is left out above.
- The `tqdm` progress bars and `print` output (converter.py:21, 29, 60, 67, 77, 113, 122) do not affect the result.
- ui.py is not part of this model: the Tkinter interface, its worker thread and its playback.
- Converter.NonVocalTransformRanges: assumes the mixing step returns one row per CQT bin, which the model does not derive, because `blend` is a parameter.
