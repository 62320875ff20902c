/**
 * The byte-to-level maps and single-voice sounds of the node-list audio processors
 * (web/audio-processor.js and past/web/v0.9.8.0/audio-processor.js) and the stand-alone
 * circle-of-fifths `mapFrame` (web/synthesis-methods/grids/circle-of-fifths.js). The two
 * processors share the code and differ only in their tuning: the base and span of the
 * frequency formula and the FM modulation depth.
 */
module SoundMaps {
  import opened Motion

  /** `mapHexTonnetz`: every byte divided by 255. */
  function Normalized(data: seq<int>): (mapped: seq<real>)
    ensures |mapped| == |data|
    ensures forall i :: 0 <= i < |data| ==> mapped[i] == data[i] as real / 255.0
  {
    seq(|data|, i requires 0 <= i < |data| => data[i] as real / 255.0)
  }

  /** `mapCircleOfFifths`: every byte divided by 255 and scaled by 0.9. */
  function Scaled(data: seq<int>): (mapped: seq<real>)
    ensures |mapped| == |data|
    ensures forall i :: 0 <= i < |data| ==> mapped[i] == (data[i] as real / 255.0) * 0.9
  {
    seq(|data|, i requires 0 <= i < |data| => (data[i] as real / 255.0) * 0.9)
  }

  /** `mapFrame` of web/synthesis-methods/grids/circle-of-fifths.js: the scaled map; the frame's size is not used. */
  function MapFrame(data: seq<int>, width: int, height: int): (mapped: seq<real>)
    ensures |mapped| == |data|
  {
    Scaled(data)
  }

  /** A sequence whose every level lies in [lo, hi]. */
  ghost predicate Within(s: seq<real>, lo: real, hi: real) {
    forall i :: 0 <= i < |s| ==> lo <= s[i] <= hi
  }

  /** Bytes normalize into [0, 1]; the scaled map is 0.9 times the normalized one and stays in [0, 0.9]. */
  lemma MapsOfBytes(data: seq<int>)
    requires Bytes(data)
    ensures Within(Normalized(data), 0.0, 1.0)
    ensures Within(Scaled(data), 0.0, 0.9)
    ensures forall i :: 0 <= i < |data| ==> Scaled(data)[i] == 0.9 * Normalized(data)[i]
  {
    forall i | 0 <= i < |data|
      ensures 0.0 <= Normalized(data)[i] <= 1.0
    {
      assert 0.0 <= data[i] as real <= 255.0;
    }
  }

  /** `mapFrame` is the scaled map, whatever width and height it is given; a byte frame maps into [0, 0.9]. */
  lemma MapFrameIsScaled(data: seq<int>, width: int, height: int)
    ensures MapFrame(data, width, height) == Scaled(data)
    ensures Bytes(data) ==> Within(MapFrame(data, width, height), 0.0, 0.9)
  {
    if Bytes(data) {
      MapsOfBytes(data);
    }
  }

  // ---------------------------------------------------------------- frequencies

  /** `mappedData.reduce((sum, val) => sum + val, 0)`. */
  function Total(s: seq<real>): real {
    if s == [] then 0.0 else Total(s[..|s| - 1]) + s[|s| - 1]
  }

  /** Levels in [lo, hi] add up to between |s|·lo and |s|·hi. */
  lemma {:induction false} TotalBounds(s: seq<real>, lo: real, hi: real)
    requires Within(s, lo, hi)
    ensures |s| as real * lo <= Total(s) <= |s| as real * hi
  {
    if s != [] {
      var init := s[..|s| - 1];
      assert Within(init, lo, hi) by {
        forall i | 0 <= i < |init| ensures lo <= init[i] <= hi {
          assert init[i] == s[i];
        }
      }
      TotalBounds(init, lo, hi);
      assert lo <= s[|s| - 1] <= hi;
    }
  }

  /** The tuning of a processor version: `base + mean * span` Hz and the FM modulation depth. */
  datatype Tuning = Tuning(base: real, span: real, modGain: real)

  /** web/audio-processor.js: 100 + mean·900 Hz, modulation depth 100. */
  const WebTuning: Tuning := Tuning(100.0, 900.0, 100.0)
  /** past/web/v0.9.8.0/audio-processor.js: 200 + mean·400 Hz, modulation depth 50. */
  const LegacyTuning: Tuning := Tuning(200.0, 400.0, 50.0)

  /** The frequency used when there is no data. */
  const DefaultFrequency: real := 440.0
  /** The FM modulator's frequency. */
  const ModulatorFrequency: real := 220.0

  /** `createSineWave`'s frequency: base + mean·span for non-empty data, 440 for empty data. */
  function SineFrequency(t: Tuning, mapped: seq<real>): real {
    if |mapped| > 0 then t.base + (Total(mapped) / |mapped| as real) * t.span else DefaultFrequency
  }

  /** The sound a source node plays. */
  datatype Sound =
    | Sine(freq: real)
    | FM(carrier: real, modulator: real, modGain: real)

  /** `createSineWave`. */
  function SineWave(t: Tuning, mapped: seq<real>): Sound {
    Sine(SineFrequency(t, mapped))
  }

  /** `createFMSynthesis`: a 440 Hz carrier retuned to base + mean·span when there is data, a 220 Hz modulator. */
  function FMSynthesis(t: Tuning, mapped: seq<real>): Sound {
    var carrier := if |mapped| > 0 then t.base + (Total(mapped) / |mapped| as real) * t.span else DefaultFrequency;
    FM(carrier, ModulatorFrequency, t.modGain)
  }

  /** The mapped levels' mean lies in [0, 1], so the frequency lies in [base, base + span]; no data gives 440 Hz. */
  lemma SineFrequencyRange(t: Tuning, mapped: seq<real>)
    requires 0.0 <= t.span && Within(mapped, 0.0, 1.0)
    ensures mapped == [] ==> SineFrequency(t, mapped) == DefaultFrequency
    ensures mapped != [] ==> t.base <= SineFrequency(t, mapped) <= t.base + t.span
  {
    if mapped != [] {
      TotalBounds(mapped, 0.0, 1.0);
      var n := |mapped| as real;
      var m := Total(mapped) / n;
      assert 0.0 <= m <= 1.0 by {
        assert 0.0 <= Total(mapped) <= n;
        assert m * n == Total(mapped);
      }
      assert 0.0 <= m * t.span by {
        assert 0.0 <= m && 0.0 <= t.span;
      }
      assert m * t.span <= t.span by {
        assert 0.0 <= (1.0 - m) * t.span;
      }
      assert SineFrequency(t, mapped) == t.base + m * t.span;
    }
  }

  /** With byte data, the web version sounds between 100 and 1000 Hz, v0.9.8.0 between 200 and 600 Hz. */
  lemma FrequencyOfBytes(data: seq<int>)
    requires Bytes(data) && data != []
    ensures 100.0 <= SineFrequency(WebTuning, Normalized(data)) <= 1000.0
    ensures 100.0 <= SineFrequency(WebTuning, Scaled(data)) <= 1000.0
    ensures 200.0 <= SineFrequency(LegacyTuning, Normalized(data)) <= 600.0
    ensures 200.0 <= SineFrequency(LegacyTuning, Scaled(data)) <= 600.0
  {
    MapsOfBytes(data);
    assert Within(Scaled(data), 0.0, 1.0);
    SineFrequencyRange(WebTuning, Normalized(data));
    SineFrequencyRange(WebTuning, Scaled(data));
    SineFrequencyRange(LegacyTuning, Normalized(data));
    SineFrequencyRange(LegacyTuning, Scaled(data));
  }

  // ---------------------------------------------------------------- selection

  datatype GridMap = HexTonnetzMap | CircleOfFifthsMap
  datatype Engine = SineWaveEngine | FMSynthesisEngine

  /** `gridMap[gridType] || mapHexTonnetz`. */
  function SelectGrid(gridType: string): (g: GridMap)
    ensures g == CircleOfFifthsMap <==> gridType == "circle-of-fifths"
  {
    if gridType == "hex-tonnetz" then HexTonnetzMap
    else if gridType == "circle-of-fifths" then CircleOfFifthsMap
    else HexTonnetzMap
  }

  /** `engineMap[synthesisEngine] || createSineWave`. */
  function SelectEngine(synthesisEngine: string): (e: Engine)
    ensures e == FMSynthesisEngine <==> synthesisEngine == "fm-synthesis"
  {
    if synthesisEngine == "sine-wave" then SineWaveEngine
    else if synthesisEngine == "fm-synthesis" then FMSynthesisEngine
    else SineWaveEngine
  }

  function MapWith(g: GridMap, data: seq<int>): seq<real> {
    match g
    case HexTonnetzMap => Normalized(data)
    case CircleOfFifthsMap => Scaled(data)
  }

  function SoundWith(e: Engine, t: Tuning, mapped: seq<real>): Sound {
    match e
    case SineWaveEngine => SineWave(t, mapped)
    case FMSynthesisEngine => FMSynthesis(t, mapped)
  }

  /** The sound `playAudio` starts for the given settings. */
  function Played(t: Tuning, gridType: string, synthesisEngine: string, data: seq<int>): Sound {
    SoundWith(SelectEngine(synthesisEngine), t, MapWith(SelectGrid(gridType), data))
  }

  /**
   * Unknown settings fall back to the normalized map and the sine voice; the fm engine's
   * carrier follows the sine formula, and for byte data the voice stays within the tuning's range.
   */
  lemma PlayedSound(t: Tuning, gridType: string, synthesisEngine: string, data: seq<int>)
    requires t == WebTuning || t == LegacyTuning
    ensures var mapped := if gridType == "circle-of-fifths" then Scaled(data) else Normalized(data);
      Played(t, gridType, synthesisEngine, data)
        == if synthesisEngine == "fm-synthesis" then FM(SineFrequency(t, mapped), ModulatorFrequency, t.modGain)
           else Sine(SineFrequency(t, mapped))
    ensures Bytes(data) && data != [] ==>
      var f := match Played(t, gridType, synthesisEngine, data) case Sine(f) => f case FM(c, _, _) => c;
      t.base <= f <= t.base + t.span
  {
    if Bytes(data) && data != [] {
      FrequencyOfBytes(data);
    }
  }

  // ---------------------------------------------------------------- nodes and contexts

  /** The Web Audio nodes a processor keeps for stopping: a started source and its gain stage. */
  datatype Node = SourceNode(sound: Sound) | GainNode(gain: real)

  /** `AudioContext.state`. */
  datatype ContextState = Running | Suspended | Closed
  datatype AudioContext = AudioContext(state: ContextState)
}
