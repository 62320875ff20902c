/**
 * web/grid-dispatcher.js: `mapFrame` forwards its five arguments to the mapper that
 * `settings.gridType` names. Its relative imports name grid files that are not part of
 * this model; it is wired here to the two mappers that are, which have the signature it
 * calls: present/synthesis-methods/grids/hex-tonnetz.js and
 * synthesis-methods/grids/circle-of-fifths.js. The settings the mappers read (the day/night
 * mode) and their module-level tables are passed in.
 */
module GridDispatcher {
  import opened Wrappers
  import opened Motion
  import opened GridNotes
  import HexTonnetz
  import CircleOfFifths

  /** The mapper a grid type selects: circle-of-fifths by its exact name, the hex tonnetz for every other value. */
  function SelectsCircle(gridType: string): (circle: bool)
    ensures circle <==> gridType == "circle-of-fifths"
  {
    match gridType
    case "circle-of-fifths" => true
    case _ => false
  }

  /** The notes the selected mapper returns for a frame. */
  function MappedNotes(gridType: string, frameData: seq<int>, width: nat, height: nat, prevFrameData: Option<seq<int>>,
                       panValue: real, dayNightMode: string): (notes: seq<Note>)
    requires |frameData| == width * height && (prevFrameData.Some? ==> |prevFrameData.value| == |frameData|)
    ensures gridType == "circle-of-fifths" ==>
      notes == CircleOfFifths.NotesOf(CircleOfFifths.Chosen(frameData, width, height, prevFrameData), dayNightMode, panValue)
    ensures gridType != "circle-of-fifths" ==>
      notes == HexTonnetz.NotesOf(HexTonnetz.Chosen(frameData, width, height, prevFrameData), dayNightMode, panValue)
  {
    if SelectsCircle(gridType) then
      CircleOfFifths.NotesOf(CircleOfFifths.Chosen(frameData, width, height, prevFrameData), dayNightMode, panValue)
    else
      HexTonnetz.NotesOf(HexTonnetz.Chosen(frameData, width, height, prevFrameData), dayNightMode, panValue)
  }

  /** `mapFrame`: the selected mapper's result, returned as it is. */
  method MapFrame(gridType: string, frameData: seq<int>, width: nat, height: nat, prevFrameData: Option<seq<int>>,
                  panValue: real, dayNightMode: string, hexGrid: array2<int>, frequencies: seq<int>)
    returns (result: MapResult)
    requires |frameData| == width * height && (prevFrameData.Some? ==> |prevFrameData.value| == |frameData|)
    requires HexTonnetz.IsHexGrid(hexGrid) && IsTable(frequencies)
    ensures result.newFrameData == frameData && result.avgIntensity == Average(frameData)
    ensures gridType == "circle-of-fifths" ==>
      result.notes == CircleOfFifths.NotesOf(CircleOfFifths.Chosen(frameData, width, height, prevFrameData), dayNightMode, panValue)
    ensures gridType != "circle-of-fifths" ==>
      result.notes == HexTonnetz.NotesOf(HexTonnetz.Chosen(frameData, width, height, prevFrameData), dayNightMode, panValue)
    ensures result.notes == MappedNotes(gridType, frameData, width, height, prevFrameData, panValue, dayNightMode)
  {
    if SelectsCircle(gridType) {
      result := CircleOfFifths.MapFrameToCircleOfFifths(frameData, width, height, prevFrameData, panValue, dayNightMode, frequencies);
    } else {
      result := HexTonnetz.MapFrameToTonnetz(frameData, width, height, prevFrameData, panValue, dayNightMode, hexGrid);
    }
  }

  /**
   * Both grids keep the frame for the next comparison and report the same mean; they differ
   * in their notes, which the circle confines to one octave and at most eight, the hex tonnetz
   * to five octaves and at most sixteen.
   */
  lemma DispatchBounds(gridType: string, frame: seq<int>, width: nat, height: nat, prev: Option<seq<int>>)
    requires |frame| == width * height && (prev.Some? ==> |prev.value| == |frame|)
    ensures SelectsCircle(gridType) ==> |CircleOfFifths.Chosen(frame, width, height, prev)| <= 8
    ensures !SelectsCircle(gridType) ==> |HexTonnetz.Chosen(frame, width, height, prev)| <= 16
    ensures prev.None? ==> CircleOfFifths.Chosen(frame, width, height, prev) == [] && HexTonnetz.Chosen(frame, width, height, prev) == []
  {
    CircleOfFifths.ChosenCount(frame, width, height, prev);
    HexTonnetz.ChosenCount(frame, width, height, prev);
  }
}
