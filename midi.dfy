/**
 * The arithmetic of notes_to_midi in converter.py: one track whose tempo is the
 * detected bpm, and one MIDI note per extracted note on channel 0, with start
 * time and duration converted from seconds to beats as x * bpm / 60.
 *
 * Serialising the track to a Standard MIDI File is not modelled.
 */
module Midi {
  import opened Notes

  /** One `midi.addNote(track, 0, note, time_in_beats, duration_in_beats, velocity)` call. */
  datatype MidiNote = MidiNote(track: nat, channel: nat, pitch: int, time: real, duration: real, volume: int)

  /** The single track: its tempo event at beat 0 and its notes, in the order they were added. */
  datatype MidiTrack = MidiTrack(tempo: real, notes: seq<MidiNote>)

  /** Seconds to beats at the given tempo. */
  function ToBeats(seconds: real, bpm: real): (beats: real)
    ensures beats * 60.0 == seconds * bpm
  {
    (seconds * bpm) / 60.0
  }

  /** Beats back to seconds, for a non-zero tempo. */
  function FromBeats(beats: real, bpm: real): (seconds: real)
    requires bpm != 0.0
    ensures seconds * bpm == beats * 60.0
  {
    (beats * 60.0) / bpm
  }

  /** The two conversions undo each other at any non-zero tempo. */
  lemma BeatsRoundTrip(seconds: real, beats: real, bpm: real)
    requires bpm != 0.0
    ensures FromBeats(ToBeats(seconds, bpm), bpm) == seconds
    ensures ToBeats(FromBeats(beats, bpm), bpm) == beats
  {
    var b := ToBeats(seconds, bpm);
    var s := FromBeats(b, bpm);
    assert s * bpm == seconds * bpm;
    assert (s - seconds) * bpm == 0.0;
  }

  /** Time zero is beat zero, and at a positive tempo only time zero is. */
  lemma ZeroIsBeatZero(seconds: real, bpm: real)
    requires bpm > 0.0
    ensures ToBeats(seconds, bpm) == 0.0 <==> seconds == 0.0
  {
    if ToBeats(seconds, bpm) == 0.0 {
      assert seconds * bpm == 0.0;
    }
  }

  /** At a positive tempo the conversion keeps the order of times, in both directions. */
  lemma ToBeatsMonotone(x: real, y: real, bpm: real)
    requires bpm > 0.0
    ensures x <= y <==> ToBeats(x, bpm) <= ToBeats(y, bpm)
  {
    assert (ToBeats(y, bpm) - ToBeats(x, bpm)) * 60.0 == (y - x) * bpm;
  }

  /** The end of a note in beats is its start in beats plus its duration in beats. */
  lemma ToBeatsAdditive(start: real, duration: real, bpm: real)
    ensures ToBeats(start + duration, bpm) == ToBeats(start, bpm) + ToBeats(duration, bpm)
  {
    assert (start + duration) * bpm == start * bpm + duration * bpm;
  }

  /** Facts about one converted time that the MIDI note relies on. */
  lemma ToBeatsFacts(seconds: real, bpm: real)
    ensures bpm != 0.0 ==> FromBeats(ToBeats(seconds, bpm), bpm) == seconds
    ensures bpm > 0.0 ==> (ToBeats(seconds, bpm) >= 0.0 <==> seconds >= 0.0)
    ensures bpm > 0.0 ==> (ToBeats(seconds, bpm) > 0.0 <==> seconds > 0.0)
  {
    if bpm != 0.0 {
      BeatsRoundTrip(seconds, 0.0, bpm);
    }
    if bpm > 0.0 {
      ToBeatsMonotone(0.0, seconds, bpm);
      ZeroIsBeatZero(seconds, bpm);
    }
  }

  /**
   * The MIDI note written for one extracted note: track 0, channel 0, the same pitch
   * and velocity, and times in beats that convert back to the note's seconds. At a
   * positive tempo a note at or after time 0 stays there, and a note with positive
   * duration keeps a positive duration.
   */
  function ToMidiNote(n: Note, bpm: real): (m: MidiNote)
    ensures m.track == 0 && m.channel == 0
    ensures m.pitch == n.pitch && m.volume == n.velocity
    ensures bpm != 0.0 ==> FromBeats(m.time, bpm) == n.start && FromBeats(m.duration, bpm) == n.duration
    ensures bpm > 0.0 ==> (m.time >= 0.0 <==> n.start >= 0.0)
    ensures bpm > 0.0 ==> (m.duration > 0.0 <==> n.duration > 0.0)
  {
    ToBeatsFacts(n.start, bpm);
    ToBeatsFacts(n.duration, bpm);
    MidiNote(0, 0, n.pitch, ToBeats(n.start, bpm), ToBeats(n.duration, bpm), n.velocity)
  }

  ghost predicate SortedByTime(s: seq<MidiNote>)
  {
    forall a, b :: 0 <= a < b < |s| ==> s[a].time <= s[b].time
  }

  /** notes_to_midi without the file write: the tempo event and one addNote per note, in order. */
  method NotesToMidi(notes: seq<Note>, bpm: real) returns (track: MidiTrack)
    ensures track.tempo == bpm
    ensures |track.notes| == |notes|
    ensures forall k :: 0 <= k < |notes| ==> track.notes[k] == ToMidiNote(notes[k], bpm)
  {
    var added: seq<MidiNote> := [];
    for k := 0 to |notes|
      invariant |added| == k
      invariant forall j :: 0 <= j < k ==> added[j] == ToMidiNote(notes[j], bpm)
    {
      var n := notes[k];
      var timeInBeats := (n.start * bpm) / 60.0;
      var durationInBeats := (n.duration * bpm) / 60.0;
      added := added + [MidiNote(0, 0, n.pitch, timeInBeats, durationInBeats, n.velocity)];
    }
    track := MidiTrack(bpm, added);
  }

  /** At a positive tempo, notes sorted by start time give MIDI notes sorted by beat, in both directions. */
  lemma MidiOrderFollowsNoteOrder(notes: seq<Note>, bpm: real, written: seq<MidiNote>)
    requires bpm > 0.0
    requires |written| == |notes|
    requires forall k :: 0 <= k < |notes| ==> written[k] == ToMidiNote(notes[k], bpm)
    ensures SortedByStart(notes) <==> SortedByTime(written)
  {
    forall a, b | 0 <= a < b < |notes|
      ensures notes[a].start <= notes[b].start <==> written[a].time <= written[b].time
    {
      ToBeatsMonotone(notes[a].start, notes[b].start, bpm);
    }
  }
}
