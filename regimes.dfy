/**
 * The two processing regimes of converter.py and what sets them apart: the
 * pitch grid (one or two CQT bins per semitone), the velocity threshold and the
 * register weighting of the vocal regime.
 */
module Regimes {
  import opened Options

  datatype Regime = Vocal | NonVocal

  /** librosa.note_to_midi('A0'): the MIDI number of CQT bin 0. */
  const LowestPitch: int := 21

  /** Highest MIDI number on the 88-key grid, C8. */
  const HighestPitch: int := 108

  /** n_bins of the regime's constant-Q transform. */
  function BinCount(regime: Regime): nat
  {
    match regime
    case Vocal => 88
    case NonVocal => 176
  }

  /** `peak + 21` (vocal) and `peak // 2 + 21` (non-vocal). */
  function PitchOf(regime: Regime, peak: nat): (pitch: int)
    ensures LowestPitch <= pitch
    ensures peak < BinCount(regime) ==> pitch <= HighestPitch
  {
    match regime
    case Vocal => peak + LowestPitch
    case NonVocal => peak / 2 + LowestPitch
  }

  /**
   * The grid starts at A0 and ends at C8 in both regimes; the non-vocal grid gives
   * each semitone two adjacent bins.
   */
  lemma GridSpansPiano(regime: Regime)
    ensures PitchOf(regime, 0) == LowestPitch
    ensures PitchOf(regime, BinCount(regime) - 1) == HighestPitch
    ensures forall p: nat :: p < BinCount(NonVocal) ==> PitchOf(NonVocal, p) == PitchOf(Vocal, p / 2)
  {
  }

  /** A note is kept only when its velocity is strictly above this. */
  function Threshold(regime: Regime): int
  {
    match regime
    case Vocal => 42
    case NonVocal => 63
  }

  /**
   * min(int(v * (peak / 176 / 2 + 0.75)), 127), written exactly in integers:
   * v * (peak / 352 + 3/4) = v * (peak + 264) / 352.
   */
  function VocalWeighted(v: nat, peak: nat): (w: int)
    ensures 0 <= w <= 127
    ensures v <= 127 ==> (v * 3) / 4 <= w
    ensures peak < 88 ==> w <= v
    ensures 0 < v && peak < 88 ==> w < v
  {
    var scaled := (v * (peak + 264)) / 352;
    WeightedBounds(v, peak);
    if scaled < 127 then scaled else 127
  }

  lemma WeightedBounds(v: nat, peak: nat)
    ensures (v * 3) / 4 <= (v * (peak + 264)) / 352
    ensures peak < 88 ==> (v * (peak + 264)) / 352 <= v
    ensures 0 < v && peak < 88 ==> (v * (peak + 264)) / 352 < v
  {
    var n := v * (peak + 264);
    assert n == v * peak + v * 264;
    assert v * peak >= 0;
    assert (v * 3) / 4 == (v * 264) / 352;
    if peak < 88 {
      assert v * peak <= v * 87;
      assert n <= v * 351;
    }
  }

  /** The integer form agrees with the real-number formula the source evaluates. */
  lemma VocalWeightIsExact(v: nat, peak: nat)
    ensures ((v as real) * ((peak as real) / 176.0 / 2.0 + 0.75)).Floor == (v * (peak + 264)) / 352
  {
    var n := v * (peak + 264);
    var q, r := n / 352, n % 352;
    assert n == 352 * q + r && 0 <= r < 352;
    calc {
      (v as real) * ((peak as real) / 176.0 / 2.0 + 0.75);
      (v as real) * ((peak as real) + 264.0) / 352.0;
      (n as real) / 352.0;
      (q as real) + (r as real) / 352.0;
    }
    assert 0.0 <= (r as real) / 352.0 < 1.0;
  }

  /** The loudness a kept note carries: weighted in the vocal regime, unchanged otherwise. */
  function EmittedVelocity(regime: Regime, v: nat, peak: nat): (w: int)
    ensures 0 <= w
    ensures v <= 127 ==> w <= 127
  {
    match regime
    case Vocal => VocalWeighted(v, peak)
    case NonVocal => v
  }

  /** The `type` argument that selects a regime. */
  function RegimeName(regime: Regime): string
  {
    match regime
    case Vocal => "vocal"
    case NonVocal => "non_vocal"
  }

  /** audio_to_notes_polyphonic's dispatch: any other name selects nothing (None). */
  function SelectRegime(name: string): (r: Option<Regime>)
    ensures r.Some? <==> name == "vocal" || name == "non_vocal"
    ensures r.Some? ==> RegimeName(r.value) == name
  {
    if name == "vocal" then Some(Vocal)
    else if name == "non_vocal" then Some(NonVocal)
    else None
  }

  /** Every regime is selected by its own name. */
  lemma SelectRegimeByName(regime: Regime)
    ensures SelectRegime(RegimeName(regime)) == Some(regime)
  {
    match regime
    case Vocal =>
    case NonVocal =>
      assert RegimeName(NonVocal) != "vocal";
  }
}
