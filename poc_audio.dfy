/**
 * The Python prototype's audio generators (a live pyo server and an offline
 * pyo server that records to a file). Both normalise the two energies to
 * amplitudes and build the same three-voice graph; pyo itself is not modelled,
 * so the result is the description of the server and graph they set up.
 */
module PocAudio {

  /** `min(abs(energy) / 100, 1.0)`: an energy as an amplitude in [0, 1]. */
  function Amplitude(energy: real): (amp: real)
    ensures 0.0 <= amp <= 1.0
    ensures energy == 0.0 ==> amp == 0.0
    ensures (energy >= 100.0 || energy <= -100.0) ==> amp == 1.0
    ensures -100.0 < energy < 100.0 ==> amp * 100.0 == (if energy < 0.0 then -energy else energy)
  {
    var magnitude := if energy < 0.0 then -energy else energy;
    if magnitude / 100.0 < 1.0 then magnitude / 100.0 else 1.0
  }

  /** The sign of the energy is ignored. */
  lemma AmplitudeIsSymmetric(energy: real)
    ensures Amplitude(-energy) == Amplitude(energy)
  {
  }

  /** A larger energy magnitude never gives a smaller amplitude. */
  lemma AmplitudeIsMonotone(e1: real, e2: real)
    requires 0.0 <= e1 <= e2
    ensures Amplitude(e1) <= Amplitude(e2)
  {
  }

  /** A pyo sound source with its `mul` amplitude. */
  datatype Source = Noise(mul: real) | Sine(freq: real, mul: real)

  /** A source and the first output channel its `.out(chnl)` call names (pyo's default is 0). */
  datatype Voice = Voice(source: Source, chnl: nat)

  /** The server: a real-time one, or an offline one recording `seconds` to `file`. */
  datatype Server = RealTime | Offline(seconds: real, file: string)

  /** The server and the voices `generate_audio` starts. */
  datatype Rendering = Rendering(server: Server, voices: seq<Voice>)

  /** The 300 Hz tone frequency and the noise floor's amplitude. */
  const ToneFrequency: real := 300.0
  const NoiseFloor: real := 0.02

  /** The three voices both generators start: noise `.out()`, the left tone `.out(0)`, the right tone `.out(1)`. */
  function Voices(leftEnergy: real, rightEnergy: real): seq<Voice> {
    [ Voice(Noise(NoiseFloor), 0),
      Voice(Sine(ToneFrequency, Amplitude(leftEnergy)), 0),
      Voice(Sine(ToneFrequency, Amplitude(rightEnergy)), 1) ]
  }

  /** The sources routed to one channel. */
  function SourcesOn(voices: seq<Voice>, chnl: nat): (r: seq<Source>)
    ensures |r| <= |voices|
  {
    if voices == [] then []
    else (if voices[0].chnl == chnl then [voices[0].source] else []) + SourcesOn(voices[1..], chnl)
  }

  /** `generate_audio` of audio_generator.py: a real-time server; `duration` is accepted and unused. */
  function GenerateAudio(leftEnergy: real, rightEnergy: real, duration: int): (r: Rendering)
    ensures r.server == RealTime
  {
    Rendering(RealTime, Voices(leftEnergy, rightEnergy))
  }

  /** `generate_audio` of audio_generator_codespaces.py: an offline server recording `duration / 1000` seconds. */
  function GenerateAudioOffline(leftEnergy: real, rightEnergy: real, duration: int, outputFile: string): (r: Rendering)
    ensures r.server.Offline? && r.server.file == outputFile
    ensures r.server.seconds * 1000.0 == duration as real
  {
    Rendering(Offline(duration as real / 1000.0, outputFile), Voices(leftEnergy, rightEnergy))
  }

  /**
   * What each channel hears: channel 0 gets the noise floor and the left tone, channel 1
   * only the right tone (the noise's `.out()` names channel 0, like the left tone's `.out(0)`),
   * and no other channel gets anything.
   */
  lemma ChannelContents(leftEnergy: real, rightEnergy: real, chnl: nat)
    ensures SourcesOn(Voices(leftEnergy, rightEnergy), 0) == [Noise(0.02), Sine(300.0, Amplitude(leftEnergy))]
    ensures SourcesOn(Voices(leftEnergy, rightEnergy), 1) == [Sine(300.0, Amplitude(rightEnergy))]
    ensures chnl > 1 ==> SourcesOn(Voices(leftEnergy, rightEnergy), chnl) == []
  {
    var v := Voices(leftEnergy, rightEnergy);
    var last := v[1..][1..];
    assert last[1..] == [];
    assert SourcesOn(last, 0) == [] && SourcesOn(last, 1) == [v[2].source];
    assert chnl > 1 ==> SourcesOn(last, chnl) == [];
    assert SourcesOn(v[1..], 0) == [v[1].source] && SourcesOn(v[1..], 1) == [v[2].source];
    assert chnl > 1 ==> SourcesOn(v[1..], chnl) == [];
  }

  /** Each tone's amplitude depends only on its own side's energy. */
  lemma SidesAreIndependent(l: real, r1: real, r2: real)
    ensures SourcesOn(Voices(l, r1), 0) == SourcesOn(Voices(l, r2), 0)
  {
    ChannelContents(l, r1, 0);
    ChannelContents(l, r2, 0);
  }

  /** The live generator's graph does not depend on `duration`. */
  lemma LiveDurationIsUnused(l: real, r: real, d1: int, d2: int)
    ensures GenerateAudio(l, r, d1) == GenerateAudio(l, r, d2)
  {
  }

  /** Both generators start the same voices; only the server differs. */
  lemma GeneratorsAgreeOnVoices(l: real, r: real, duration: int, file: string)
    ensures GenerateAudio(l, r, duration).voices == GenerateAudioOffline(l, r, duration, file).voices
  {
  }

  /** The scripts' demos: energies 50 and 20 give tones at 0.5 and 0.2; 2000 ms records 2 seconds. */
  lemma Demo(file: string)
    ensures SourcesOn(GenerateAudio(50.0, 20.0, 2000).voices, 0) == [Noise(0.02), Sine(300.0, 0.5)]
    ensures SourcesOn(GenerateAudio(50.0, 20.0, 2000).voices, 1) == [Sine(300.0, 0.2)]
    ensures GenerateAudioOffline(50.0, 20.0, 2000, file).server.seconds == 2.0
  {
    ChannelContents(50.0, 20.0, 0);
  }
}
