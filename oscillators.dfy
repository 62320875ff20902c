/**
 * The oscillator records the browser versions keep: each Web Audio oscillator, gain and
 * stereo panner triple is represented by the targets last scheduled on it (through
 * `setValueAtTime` or `setTargetAtTime`) and its `active` flag. Frequencies are semitone
 * indices above 100 Hz, as in the grid tables; None stands for 0 Hz.
 */
module Oscillators {
  import opened Wrappers

  datatype Wave = Sine | Square | Triangle

  /** One oscillator's state: its scheduled wave, frequency (None: 0 Hz), gain and pan, and the active flag. */
  datatype Osc = Osc(wave: Wave, freq: Option<int>, gain: real, pan: real, active: bool)

  /** An oscillator as `initializeAudio` creates it: a silent sine at 0 Hz, centred. */
  const InitialOsc: Osc := Osc(Sine, None, 0.0, 0.0, false)

  /** An oscillator faded out: gain target 0, inactive, the rest kept. */
  function Silenced(o: Osc): Osc {
    o.(gain := 0.0, active := false)
  }

  /** An oscillator the engines point at a note or a harmonic: a sine targeting that pitch, gain and pan, active. */
  function Voiced(pitch: int, gain: real, pan: real): Osc {
    Osc(Sine, Some(pitch), gain, pan, true)
  }

  /**
   * A modulating oscillator an FM engine creates: its frequency target (twice the note's
   * frequency, i.e. the index twelve semitones up), its gain stage's target and the index
   * of the oscillator whose frequency it modulates.
   */
  datatype Modulator = Modulator(freq: int, gain: real, target: nat)

  /** Twice a frequency, as a semitone index: one octave up. */
  const OctaveUp: int := 12

  /** The oscillators and the running `oscIndex` between iterations of the update loop. */
  datatype Bank = Bank(oscs: seq<Osc>, oscIndex: nat)

  /** The same, with the modulators an FM engine has created so far. */
  datatype FMBank = FMBank(oscs: seq<Osc>, oscIndex: nat, modulators: seq<Modulator>)
}
