# acoustsee core in Dafny

acoustsee turns a camera image into sound for blind and low-vision users. This project models what each of its versions computes, and proves properties of those models:

- **Python prototype.** It runs a four-orientation Gabor filter bank over a 320-wide grey image and takes the mean response energy of the left and right halves. Each energy becomes an amplitude `min(|e| / 100, 1)`, and the amplitudes drive a fixed pyo graph: noise on channel 0 plus a 300 Hz tone per side, the left tone on channel 0 and the right tone on channel 1.
- **FFT library.**
  - The FFT is the radix-4 one of web/fft/fft.js.
  - The model covers:
    - size validation;
    - the power and width computation;
    - the digit-reversal table, with proofs of which entries the transforms read;
    - the conversions between real and interleaved-complex arrays, and their round trip;
    - the in-place conjugate mirror of `completeSpectrum`;
    - the `_out` / `_data` / `_inv` protocol of the three transforms.
  - Its 32-bit integer operators follow ToInt32 / ToUint32 of ECMA-262.
- **Frame-to-note mappers.** These are the Tonnetz prototype, the hexagonal Tonnetz and the circle of fifths. Each one:
  - compares a grayscale frame with the previous one;
  - keeps the pixels whose change exceeds a threshold;
  - ranks them by change, with a stable sort;
  - accepts at most one note per grid cell (the hex version also blocks the eight neighbouring cells);
  - gives each note a day or night amplitude and its harmonics.
  Frequencies are represented by their index in the semitone table above 100 Hz, not in Hz.
- **Audio processors.**
  - The node-list processors (web/audio-processor.js and v0.9.8.0) are covered with their byte maps, frequency formulas, fallbacks and `activeNodes` bookkeeping.
  - The oscillator-pool processors (the future version and v0.9.8.5) are covered with their initialisation flags, oscillator count, frame split and engine selection.
- **Oscillator allocators.** These are the future sine and FM engines and the v0.9.8.5 FM engine.
  - Each is one loop over an array of oscillator records with a running `oscIndex`.
  - Each is proved against a fold over sequences, which then yields the final state of every oscillator, including the notes the index interplay skips and the harmonics it overwrites.
- **Settings state.** The future version's defaults and setters are covered, together with:
  - the frame-rate cycler;
  - the settings-mode toggle;
  - the event dispatcher with its 50-entry error log.
- **Speech helpers.** The three speech helpers are modelled as pure string functions, including first-occurrence `String.prototype.replace` (section 22.1.3.19 of ECMA-262).

Foreign calls become data:
- A Web Audio node is represented by the targets last scheduled on it.
- A speech utterance, an event and a created modulator are records appended to a field or returned.
- The transcendental functions and `convolve2d` of the Python code are parameters, with the one fact each lemma needs stated as a requirement.

Where the source disagrees with the descriptive documentation of the repository, the model follows the source. In particular:
- `np.arange(-size // 2, size // 2 + 1)` gives a 32 by 32 kernel for size 31.
- The grid dispatcher is wired to the two mappers that have the signature it calls.

## Model

| member | source | states |
|---|---|---|
| PocAudio.Amplitude | past/Python_PoC/src/audio_generator.py:7-9 | an energy's amplitude lies in [0, 1], is 0 for zero energy, 1 once the magnitude reaches 100, and the magnitude divided by 100 below that |
| PocAudio.AmplitudeIsSymmetric | past/Python_PoC/src/audio_generator.py:8-9 | the sign of an energy does not affect its amplitude |
| PocAudio.AmplitudeIsMonotone | past/Python_PoC/src/audio_generator.py:8-9 | a larger energy magnitude never gives a quieter tone |
| PocAudio.GenerateAudio | past/Python_PoC/src/audio_generator.py:3-17 | the live generator uses a real-time server |
| PocAudio.GenerateAudioOffline | past/Python_PoC/src/audio_generator_codespaces.py:3-17 | the offline generator records to the given file for duration/1000 seconds |
| PocAudio.ChannelContents | past/Python_PoC/src/audio_generator.py:11-14 | channel 0 carries the 0.02 noise floor and the left 300 Hz tone, channel 1 the right tone only, higher channels nothing |
| PocAudio.SidesAreIndependent | past/Python_PoC/src/audio_generator.py:8-14 | the left channel does not depend on the right energy |
| PocAudio.LiveDurationIsUnused | past/Python_PoC/src/audio_generator.py:3-17 | the live generator's result does not depend on `duration` |
| PocAudio.GeneratorsAgreeOnVoices | past/Python_PoC/src/audio_generator_codespaces.py:7-14 | both generators start the same voices; only the server differs |
| PocAudio.Demo | past/Python_PoC/src/audio_generator_codespaces.py:19-20 | the demo energies 50 and 20 give tones at 0.5 and 0.2, and 2000 ms records 2 seconds |
| VideoProcessor.Arange | src/video_processor.py:6 | `np.arange(lo, hi)` has hi - lo entries, entry i being lo + i |
| VideoProcessor.KernelOffsetsSpan | src/video_processor.py:6 | the kernel's offsets run from floor(-size/2) to floor(size/2), size + 1 of them; for size 31 that is -16 .. 15 |
| VideoProcessor.KernelOffsetAt | src/video_processor.py:6 | offset i is floor(-size/2) + i |
| VideoProcessor.GaborKernel | src/video_processor.py:5-9 | a kernel of size s is an (s+1) x (s+1) matrix, 32 x 32 for size 31 |
| VideoProcessor.GaborKernelAt | src/video_processor.py:5-9 | kernel entry (i, j) is the Gabor weight at x = offset j, y = offset i |
| VideoProcessor.RotationPreservesRadius | src/video_processor.py:7-8 | the coordinate rotation keeps the squared radius when cos^2 + sin^2 = 1 |
| VideoProcessor.EnvelopeIgnoresTheta | src/video_processor.py:7-9 | so the Gaussian envelope is the same for every orientation |
| VideoProcessor.UnrotatedKernel | src/video_processor.py:7-9 | at theta = 0 the rotated coordinates are the plain ones and the weight is the unrotated Gabor function |
| VideoProcessor.FilterBank | src/video_processor.py:17 | the bank holds four 32 x 32 kernels |
| VideoProcessor.FilterBankKernels | src/video_processor.py:17 | the bank is the size-31, sigma-5, frequency-0.1 kernel at 0, pi/4, pi/2 and 3 pi/4, in that order |
| VideoProcessor.Responses | src/video_processor.py:18 | one response per kernel, each the convolution of the image with that kernel and shaped like the image |
| VideoProcessor.ShapeOfResponses | src/video_processor.py:14-18 | every response of the resized image is 240 x 320 |
| VideoProcessor.EnergiesIgnoreKernelOrder | src/video_processor.py:17-22 | permuting the kernels changes neither half's sum nor its cell count |
| VideoProcessor.PartCountOfImageShape | src/video_processor.py:21-22 | each column half of a 320-wide matrix has 160 cells per row |
| VideoProcessor.ResponseCountsFrom | src/video_processor.py:21-22 | n responses of the image's shape contribute n * 240 * 160 cells to each half |
| VideoProcessor.BankMeanIsAverageOfKernelMeans | src/video_processor.py:21-22 | the mean over four responses is the average of their per-kernel half means |
| VideoProcessor.ProcessImage | src/video_processor.py:11-23 | `process_image` of a 240 x 320 image: the mean response over the four kernels of the left 160 columns and of the right 160 columns; what the energies mean is stated by the EnergyIsAverageOfKernelMeans lemma |
| VideoProcessor.EnergyIsAverageOfKernelMeans | src/video_processor.py:11-23 | both energies `process_image` returns are averages of the four per-kernel half means |
| VideoProcessor.ConstantResponsesGiveConstantEnergy | src/video_processor.py:21-22 | when every response cell equals c, the half's mean is c |
| VideoProcessor.SumOfPermutation | src/video_processor.py:21-22 | the sum over the responses does not depend on their order |
| Arith.Min | web/tonnetz/main.js:106 | `Math.min` gives the smaller of its two arguments |
| TonnetzMain.BuildFrequencies | web/tonnetz/main.js:62-68 | the table has 60 entries and entry k is the k-th semitone above 100 Hz |
| TonnetzMain.CircleOfFifthsIsPermutation | web/tonnetz/main.js:70 | the circle of fifths lists each of the twelve semitones exactly once |
| TonnetzMain.TonnetzIndexInTable | web/tonnetz/main.js:72-78 | a cell's index is in the table, its octave is floor(y/16 * 5) and its note the circle-of-fifths entry of x mod 12 |
| TonnetzMain.BuildTonnetzGrid | web/tonnetz/main.js:71-79 | a fresh 16 x 16 grid whose cell (x, y) holds the table entry of the cell's Tonnetz index |
| TonnetzMain.FillGridRow | web/tonnetz/main.js:73-78 | the inner loop fills row y and leaves every other row as it was |
| TonnetzMain.GridOfTable | web/tonnetz/main.js:62-79 | built from the semitone table, every grid cell holds its own Tonnetz index |
| TonnetzMain.Amplitude | web/tonnetz/main.js:109 | a region's gain: 0.02 plus its delta over 255 times 0.06, capped at maxAmplitude; its bounds and monotonicity are the two lemmas below |
| TonnetzMain.AmplitudeIsMonotone | web/tonnetz/main.js:109 | a stronger motion never gives a quieter note, and no note exceeds maxAmplitude |
| TonnetzMain.AmplitudeRange | web/tonnetz/main.js:109 | for a byte delta the gain lies between min(max, 0.02) and min(max, 0.08) |
| TonnetzMain.Harmonics | web/tonnetz/main.js:111-118 | two harmonics for major and minor and one (the tritone) otherwise, each above the note and at most a fifth above it, in semitones |
| TonnetzMain.NoteOf | web/tonnetz/main.js:107-119 | a ranked region's note: the grid's index at its cell, the capped gain of its delta, the chord of the note mode and the side's pan |
| TonnetzMain.Ranked | web/tonnetz/main.js:89-104 | the detected regions sorted by non-increasing delta, equal deltas keeping their scan order |
| TonnetzMain.RankedAreMoving | web/tonnetz/main.js:89-104 | every ranked region moved by more than 30 and lies in the 16 x 16 grid |
| TonnetzMain.NotesOfRanked | web/tonnetz/main.js:105-120 | the notes are those of the first min(4, n) ranked regions, each with the grid's frequency, the clamped gain, the chord of the note mode and the side's pan |
| TonnetzMain.MapFrameToTonnetz | web/tonnetz/main.js:82-123 | the notes of a half are those of its strongest four moving regions, and the frame returned is the input frame |
| TonnetzMain.NotesOfHalf | web/tonnetz/main.js:82-123 | a half plays at most four notes and none on the first frame; each lies in the table, has the side's pan, a gain at most maxAmplitude and the note mode's chord, and the gains do not increase |
| TonnetzMain.WriteHarmonics | web/tonnetz/main.js:161-170 | writing h harmonics keeps the bank's length |
| TonnetzMain.WriteHarmonicsTouchesLater | web/tonnetz/main.js:161-170 | the harmonic writes keep every wave and touch only the oscillators after the running index |
| TonnetzMain.WaveFor | web/tonnetz/main.js:155 | square below 400 Hz, triangle below 1000 Hz, sine above, in semitone indices 24 and 40 above 100 Hz |
| TonnetzMain.Step | web/tonnetz/main.js:152-175 | one loop iteration over oscillator i: the bank keeps its length |
| TonnetzMain.Loop | web/tonnetz/main.js:149-176 | the first k iterations of the update loop, starting from index 0: the bank keeps its length |
| TonnetzMain.UpdateOscillators | web/tonnetz/main.js:149-176 | the update loop's result is the specification fold `Loop` over all oscillators |
| TonnetzMain.LoopInvariant | web/tonnetz/main.js:149-176 | after k iterations the running index is at least k, oscillators before k hold their final value and later ones keep their wave |
| TonnetzMain.OscillatorsAfterUpdate | web/tonnetz/main.js:149-176 | after the loop, oscillator j is active iff j < |notes|; an active one plays note j, an inactive one has gain 0 and keeps its wave |
| TonnetzMain.ToUint8Clamp | web/tonnetz/main.js:251 | a value stored in a Uint8ClampedArray lies in [0, 255] |
| TonnetzMain.Gray | web/tonnetz/main.js:251 | a gray pixel is the mean of its three colour bytes stored in a Uint8ClampedArray; GrayIsRoundedMean states its value |
| TonnetzMain.GrayIsRoundedMean | web/tonnetz/main.js:251 | a gray pixel is the rounded mean (r + g + b + 1) / 3 of its bytes |
| TonnetzMain.GrayFrame | web/tonnetz/main.js:249-252 | the gray frame has one entry per pixel, the clamped mean of that pixel's red, green and blue bytes |
| TonnetzMain.Grayscale | web/tonnetz/main.js:249-252 | gray pixel k is the clamped mean of the red, green and blue bytes of RGBA pixel k |
| TonnetzMain.PlayedFrame | web/tonnetz/main.js:126-176 | after a frame is played, its halves are the previous frames and the bank is the fold over the first notes of each half ranked by delta, left (pan -1) then right (pan +1) |
| TonnetzMain.IndexOf | web/tonnetz/main.js:210 | `indexOf` gives the first position of v, or -1 exactly when v is absent |
| TonnetzMain.Cycle | web/tonnetz/main.js:209-210 | the entry after v in a three-entry cycle is always one of the cycle's entries |
| TonnetzMain.CycleSteps | web/tonnetz/main.js:209-210 | a three-entry settings cycle moves to the next entry, wraps around, sends an unknown value to the first, and returns after three presses |
| TonnetzMain.SettingsCycles | web/tonnetz/main.js:209-238 | the interval cycles 50, 100, 250 ms, the note mode major, minor, dissonant, and the amplitude 0.04, 0.08, 0.12 |
| TonnetzMain.TonnetzApp.constructor | web/tonnetz/main.js:1-22 | page load: default settings, no audio, no previous frames, and the grid built from the table |
| TonnetzMain.TonnetzApp.InitializeAudio | web/tonnetz/main.js:25-54 | a second call does nothing; otherwise eight silent oscillators are added when the context is created, and the flag ends set even when creation fails |
| TonnetzMain.TonnetzApp.PlayAudio | web/tonnetz/main.js:126-176 | without audio nothing changes; otherwise both halves become the previous frames and the oscillators are the update fold over the left then right notes |
| TonnetzMain.TonnetzApp.CycleUpdateInterval | web/tonnetz/main.js:206-219 | the interval moves one step along its cycle and nothing else changes |
| TonnetzMain.TonnetzApp.CycleNoteMode | web/tonnetz/main.js:222-231 | the note mode moves one step along its cycle and nothing else changes |
| TonnetzMain.TonnetzApp.CycleMaxAmplitude | web/tonnetz/main.js:234-243 | the maximum amplitude moves one step along its cycle and nothing else changes |
| TonnetzMain.TonnetzApp.ProcessFrame | web/tonnetz/main.js:246-254 | the 64 x 48 canvas image is turned to gray and played exactly as PlayAudio plays a frame: without audio nothing changes, otherwise the gray halves become the previous frames and the bank is the fold over their notes |
| Motion.Abs | present/synthesis-methods/grids/hex-tonnetz.js:38 | `Math.abs` gives x or -x and is never negative |
| Motion.Cell | present/synthesis-methods/grids/hex-tonnetz.js:40-41 | `Math.floor(x / (extent / cells))`, cells times x divided by extent; CellInGrid bounds it |
| Motion.CellInGrid | present/synthesis-methods/grids/hex-tonnetz.js:40-41 | a pixel inside the frame falls in one of the grid's cells |
| Motion.RowRegions | present/synthesis-methods/grids/hex-tonnetz.js:36-44 | a row yields at most one region per pixel |
| Motion.ScanRow | present/synthesis-methods/grids/hex-tonnetz.js:36-44 | the inner detection loop appends exactly the regions of row y to those found above it |
| Motion.DetectMotion | present/synthesis-methods/grids/hex-tonnetz.js:34-46 | without a previous frame there are no regions; otherwise the regions are those of every moving pixel, row by row |
| Motion.Regions | present/synthesis-methods/grids/hex-tonnetz.js:35-45 | the regions of the first rows rows, row by row, in scan order; RegionsFromPixels and RegionsAreMoving state what they hold |
| Motion.Detected | present/synthesis-methods/grids/hex-tonnetz.js:34-46 | no regions without a previous frame, otherwise the regions of all rows; DetectedAreMoving states what they hold |
| Motion.DetectedAreMoving | web/tonnetz/main.js:89-101 | every detected region moved by more than the threshold and lies in the grid |
| Motion.RowRegionsFromPixels | web/tonnetz/main.js:91-98 | every region of a row comes from one of its pixels that moved by more than the threshold |
| Motion.RegionsFromPixels | web/tonnetz/main.js:90-100 | every region comes from a pixel of the frame that moved by more than the threshold |
| Motion.RegionsAreMoving | web/tonnetz/main.js:90-100 | every region moved by more than the threshold and lies in the grid |
| Motion.RegionIntensities | present/synthesis-methods/grids/hex-tonnetz.js:42 | on a byte frame every region's intensity is a byte |
| Motion.RankedRegionsMoving | present/synthesis-methods/grids/hex-tonnetz.js:34-48 | the ranked regions are sorted by non-increasing delta, all moving, with byte intensities, and empty on the first frame |
| Motion.RowStillIff | present/synthesis-methods/grids/hex-tonnetz.js:36-44 | a row yields no region exactly when none of its pixels moved by more than the threshold |
| Motion.NoRegionsIffStill | present/synthesis-methods/grids/hex-tonnetz.js:34-46 | a frame yields no region exactly when no pixel moved by more than the threshold |
| Motion.StillFrame | present/synthesis-methods/grids/hex-tonnetz.js:34-46 | a frame compared with itself has no moving region |
| Motion.Average | present/synthesis-methods/grids/hex-tonnetz.js:30-32 | the mean intensity is undefined (NaN) exactly for an empty frame |
| Motion.Mean | present/synthesis-methods/grids/hex-tonnetz.js:30-32 | the mean intensity is the frame's sum over its length, and NaN (None) for an empty frame |
| Motion.SumOfBytes | present/synthesis-methods/grids/hex-tonnetz.js:31 | a byte frame's sum lies between 0 and 255 per pixel |
| Motion.MeanOfBytes | present/synthesis-methods/grids/hex-tonnetz.js:30-32 | the mean of a non-empty byte frame lies in [0, 255] |
| Motion.SumOfConstant | present/synthesis-methods/grids/hex-tonnetz.js:31 | a frame of n equal bytes c sums to n * c |
| FrameSplit.RowSlice | future/web/audio-processor.js:125-131 | a row slice has the requested length |
| FrameSplit.HalfRows | future/web/audio-processor.js:125-131 | a half of rows rows and half columns has rows * half pixels |
| FrameSplit.RowSliceAt | web/tonnetz/main.js:136-139 | entry x of a row slice is pixel offset + x of that row |
| FrameSplit.HalfRowsPixel | web/tonnetz/main.js:135-140 | pixel (x, y) of a half is pixel (offset + x, y) of the frame |
| FrameSplit.SplitFrame | web/tonnetz/main.js:130-140 | the copy loops give the left columns [0, width/2) and the right columns [width/2, width), row by row |
| FrameSplit.CopyRow | web/tonnetz/main.js:136-139 | the inner copy loop appends row y's left half to the left frame and its right half to the right frame |
| FrameSplit.SplitCoversFrame | web/tonnetz/main.js:130-140 | every pixel of the frame lands in exactly one half, at the same row and the shifted column, and both halves have (width/2) * height pixels |
| StableSort.Insert | web/tonnetz/main.js:104 | insertion adds exactly one element |
| StableSort.InsertMembers | web/tonnetz/main.js:104 | insertion adds nothing but the inserted element |
| StableSort.InsertDescending | web/tonnetz/main.js:104 | inserting into a non-increasing sequence keeps it non-increasing |
| StableSort.SortDesc | web/tonnetz/main.js:104 | the sorted sequence is a permutation of its input |
| StableSort.SortDescIsDescending | web/tonnetz/main.js:104 | the sorted sequence is in non-increasing key order |
| StableSort.WithKey | web/tonnetz/main.js:104 | the elements of one key, in order, every one of them of that key |
| StableSort.WithKeyAppend | web/tonnetz/main.js:104 | the elements of one key in a concatenation are those of the first part followed by those of the second |
| StableSort.InsertWithKey | web/tonnetz/main.js:104 | inserting into a non-increasing sequence places the new element after every element of the same key |
| StableSort.SortDescIsStable | web/tonnetz/main.js:104 | the sort is stable: the elements of every key keep their input order |
| GridNotes.BuildFrequencies | present/synthesis-methods/grids/hex-tonnetz.js:8-14 | the filtered table holds sixty entries, entry k being the k-th semitone above 100 Hz |
| GridNotes.Amplitude | present/synthesis-methods/grids/hex-tonnetz.js:63 | the day gain rises from 0.02 with the intensity and the night gain falls from 0.08; AmplitudeRange bounds both |
| GridNotes.Harmonics | present/synthesis-methods/grids/hex-tonnetz.js:64 | a fifth and a major third above the pitch, in that order, in semitones |
| GridNotes.AmplitudeRange | present/synthesis-methods/grids/hex-tonnetz.js:63 | a byte's gain lies in [0.02, 0.08], rises with the intensity by day and falls with it by night, and the day and night gains of one intensity sum to 0.1 |
| GridNotes.Picked | present/synthesis-methods/grids/hex-tonnetz.js:50-61 | after k iterations at most k notes were chosen |
| GridNotes.InNeighbourhood | present/synthesis-methods/grids/hex-tonnetz.js:56-61 | the neighbourhood of a cell is exactly the cells within one step of it in both directions |
| GridNotes.PickedUsed | present/synthesis-methods/grids/hex-tonnetz.js:50-61 | `usedCells` holds exactly the cells blocked by the notes chosen so far |
| GridNotes.UsedByCovers | present/synthesis-methods/grids/hex-tonnetz.js:55-61 | every cell a chosen note blocks is in `usedCells` |
| GridNotes.ApartFromUnblocked | present/synthesis-methods/grids/hex-tonnetz.js:54 | a region whose cell a note does not block is apart from that note |
| GridNotes.PickedApart | present/synthesis-methods/grids/hex-tonnetz.js:50-61 | any two chosen notes are apart: different cells, and with blocking at least two steps apart in one direction |
| GridNotes.PickedGrows | present/synthesis-methods/grids/hex-tonnetz.js:50-61 | `usedCells` and the chosen notes only grow |
| GridNotes.PickedCoversExamined | present/synthesis-methods/grids/hex-tonnetz.js:51-55 | the cell of every region examined ends in `usedCells` |
| GridNotes.UsedByWitness | present/synthesis-methods/grids/hex-tonnetz.js:55-61 | each cell in `usedCells` is blocked by one of the chosen notes |
| GridNotes.ExaminedNearNote | present/synthesis-methods/grids/hex-tonnetz.js:51-61 | every region examined lies in a cell blocked by some chosen note |
| GridNotes.PickedFromRanked | present/synthesis-methods/grids/hex-tonnetz.js:51-65 | the chosen notes come from the regions examined |
| GridNotes.PickedDominates | present/synthesis-methods/grids/hex-tonnetz.js:48-51 | with the regions ranked by delta, every chosen region moved at least as much as any region not examined |
| GridNotes.PickedDescending | present/synthesis-methods/grids/hex-tonnetz.js:48-65 | with the regions ranked by delta, the notes come in non-increasing delta order |
| GridNotes.FirstIsPicked | present/synthesis-methods/grids/hex-tonnetz.js:51-55 | the strongest region always becomes the first note |
| GridNotes.BlockNeighbours | present/synthesis-methods/grids/hex-tonnetz.js:56-61 | the dy/dx loops add exactly the eight neighbouring cells |
| HexTonnetz.HexIndex | present/synthesis-methods/grids/hex-tonnetz.js:18-20 | the octave floor(y / 32 * 5) times 12 plus the note (x + (y mod 2) * 6) mod 12; HexIndexInTable states its range |
| HexTonnetz.HexIndexInTable | present/synthesis-methods/grids/hex-tonnetz.js:16-23 | a cell's index is in the table, its octave is floor(y/32 * 5) and its note (x + (y mod 2) * 6) mod 12 |
| HexTonnetz.OddRowShift | present/synthesis-methods/grids/hex-tonnetz.js:19 | an odd row sounds a tritone away from the even row above it, column by column |
| HexTonnetz.BuildHexGrid | present/synthesis-methods/grids/hex-tonnetz.js:15-23 | a fresh 32 x 32 grid whose cell (x, y) holds the table entry of the cell's index |
| HexTonnetz.FillHexRow | present/synthesis-methods/grids/hex-tonnetz.js:17-22 | the inner loop fills row y and leaves every other row as it was |
| HexTonnetz.HexGridOfTable | present/synthesis-methods/grids/hex-tonnetz.js:8-23 | built from the table, every grid cell holds its own index |
| HexTonnetz.NotesOf | present/synthesis-methods/grids/hex-tonnetz.js:62-65 | one note per chosen region, in order |
| HexTonnetz.MapFrameToTonnetz | present/synthesis-methods/grids/hex-tonnetz.js:25-69 | the result holds the notes of the chosen regions, a copy of the frame and the mean intensity |
| HexTonnetz.NotesOfRanked | present/synthesis-methods/grids/hex-tonnetz.js:49-66 | the loop returns the notes of the regions `Picked` chooses from the first min(16, n), blocking neighbourhoods |
| HexTonnetz.AcceptRegion | present/synthesis-methods/grids/hex-tonnetz.js:55-65 | an accepted region blocks its cell and its eight neighbours and yields its note |
| HexTonnetz.NoteOf | present/synthesis-methods/grids/hex-tonnetz.js:62-65 | an accepted region's note: the grid index of its cell, the day or night gain of its intensity, its harmonics and the side's pan |
| HexTonnetz.Chosen | present/synthesis-methods/grids/hex-tonnetz.js:48-61 | the regions the neighbourhood-blocking loop accepts from the first min(16, n) ranked ones; ChosenCount, ChosenApart and ChosenOrder state what they are |
| HexTonnetz.ChosenCount | present/synthesis-methods/grids/hex-tonnetz.js:34-51 | at most sixteen notes, and none on the first frame |
| HexTonnetz.ChosenNoteFields | present/synthesis-methods/grids/hex-tonnetz.js:62-65 | each note lies in the table, has the caller's pan, a fifth and a major third as harmonics, and on a byte frame a gain in [0.02, 0.08] |
| HexTonnetz.ChosenApart | present/synthesis-methods/grids/hex-tonnetz.js:54-61 | any two notes' cells are at least two steps apart in x or in y |
| HexTonnetz.ChosenOrder | present/synthesis-methods/grids/hex-tonnetz.js:48-65 | the notes come in non-increasing delta order and the strongest moving region is always the first |
| HexTonnetz.SkippedTouchesNote | present/synthesis-methods/grids/hex-tonnetz.js:51-61 | a region among the first sixteen that gave no note lies in a note's cell or one of its eight neighbours |
| CircleOfFifths.NotesOf | synthesis-methods/grids/circle-of-fifths.js:46-50 | one note per chosen region, in order |
| CircleOfFifths.MapFrameToCircleOfFifths | synthesis-methods/grids/circle-of-fifths.js:15-54 | the result holds the notes of the chosen regions, a copy of the frame and the mean intensity |
| CircleOfFifths.NotesOfRanked | synthesis-methods/grids/circle-of-fifths.js:39-51 | the loop returns the notes of the regions `Picked` chooses from the first min(8, n), one per cell |
| CircleOfFifths.NoteIndex | synthesis-methods/grids/circle-of-fifths.js:46 | the note of a cell is (gridX + gridY) mod 12 |
| CircleOfFifths.NoteOf | synthesis-methods/grids/circle-of-fifths.js:46-50 | an accepted region's note: the first-octave semitone of its cell, the day or night gain of its intensity, its harmonics and the side's pan |
| CircleOfFifths.Chosen | synthesis-methods/grids/circle-of-fifths.js:38-45 | the regions the one-per-cell loop accepts from the first min(8, n) ranked ones; ChosenCount, ChosenDistinct and ChosenOrder state what they are |
| CircleOfFifths.ChosenCount | synthesis-methods/grids/circle-of-fifths.js:24-41 | at most eight notes, and none on the first frame |
| CircleOfFifths.ChosenRegion | synthesis-methods/grids/circle-of-fifths.js:24-36 | every chosen region moved by more than 50, lies in the 12 x 12 grid and, on a byte frame, has a byte intensity |
| CircleOfFifths.ChosenNoteFields | synthesis-methods/grids/circle-of-fifths.js:46-50 | each note is a semitone of the first octave, has the caller's pan, a fifth and a major third as harmonics, and on a byte frame a gain in [0.02, 0.08] |
| CircleOfFifths.ChosenDistinct | synthesis-methods/grids/circle-of-fifths.js:43-45 | no two notes share a cell |
| CircleOfFifths.ChosenOrder | synthesis-methods/grids/circle-of-fifths.js:38-50 | the notes come in non-increasing delta order and the strongest moving region is always the first |
| CircleOfFifths.SkippedSharesCell | synthesis-methods/grids/circle-of-fifths.js:41-45 | a region among the first eight that gave no note shares a note's cell |
| CircleOfFifths.NeighboursBothPlay | synthesis-methods/grids/circle-of-fifths.js:43-45 | neighbouring cells are not blocked: two regions in adjacent cells both become notes |
| JsNumbers.ToUint32 | web/fft/fft.js:39 | ToUint32 gives a value in [0, 2^32) and keeps values already in that range |
| JsNumbers.ToInt32 | web/fft/fft.js:13 | ToInt32 gives a value in [-2^31, 2^31) and keeps values already in that range |
| JsNumbers.ToUint32Negative | web/fft/fft.js:39 | a negative 32-bit value's bit pattern is the value plus 2^32 |
| JsNumbers.ToInt32High | web/fft/fft.js:39 | a bit pattern with the sign bit set reads as the pattern minus 2^32 |
| JsNumbers.ShiftCount | web/fft/fft.js:39 | a shift uses its count's low five bits |
| JsNumbers.UnsignedShiftRight | web/fft/fft.js:39 | `>>>` gives an unsigned 32-bit value |
| JsNumbers.UnsignedShiftRightSmall | web/fft/fft.js:51 | `x >>> n` on a 32-bit unsigned value is division by 2^n |
| JsNumbers.PowerOfTwoIffNoCommonBit | web/fft/fft.js:14 | a positive integer is a power of two exactly when it has no bit in common with its predecessor |
| JsNumbers.AndThree | web/fft/fft.js:39 | `a & 3` is a's last base-4 digit |
| JsNumbers.OrDisjoint | web/fft/fft.js:39 | OR-ing a number below 2^p into a multiple of 2^p adds them |
| JsNumbers.BitOrZero | web/fft/fft.js:13 | `x \| 0` is ToInt32(x) |
| JsNumbers.ShiftLeftSmall | web/fft/fft.js:34 | `x << n` without overflow is x * 2^n |
| JsNumbers.ShiftByMinusOne | web/fft/fft.js:38-39 | a shift by -1 shifts by 31 |
| FftIndex.Digit | web/fft/fft.js:39 | a base-4 digit is below 4 |
| FftIndex.Rev4Bound | web/fft/fft.js:35-41 | the reversal of m digits is below 4^m |
| FftIndex.Rev4Digits | web/fft/fft.js:35-41 | digit i of the reversal is digit m - 1 - i of j |
| FftIndex.DigitsDetermine | web/fft/fft.js:35-41 | two numbers below 4^m with the same m digits are equal |
| FftIndex.Rev4Involution | web/fft/fft.js:35-41 | reversing the digits twice gives back any number of at most m digits |
| FftIndex.DigitIsDivMod | web/fft/fft.js:39 | digit k of j is (j / 4^k) mod 4 |
| FftIndex.DigitTerm | web/fft/fft.js:39 | `(j >>> 2k) & 3` is digit k of j |
| FftIndex.StepTerm | web/fft/fft.js:37-39 | the term OR-ed in at step k < m is digit k of j placed at bit 2(m - k - 1) + 1 |
| FftIndex.BitrevStep | web/fft/fft.js:37-40 | each inner-loop step turns the partial entry for k digits into the one for k + 1 digits |
| FftIndex.TopTerm | web/fft/fft.js:38-39 | the last step shifts by -1 (31): it ORs in the sign bit exactly when j >= 4^m |
| FftIndex.OrSignBit | web/fft/fft.js:39 | OR-ing the sign bit into a non-negative 31-bit value subtracts 2^31 |
| FftIndex.BitrevLastStep | web/fft/fft.js:37-40 | after the last step the entry is the full table value |
| FftIndex.BitrevLowHalf | web/fft/fft.js:35-41 | below 4^m the table entry is twice j's digit reversal and the sign bit never enters |
| Fft.PowerOfTwoBelow31 | web/fft/fft.js:13-14 | an accepted size is at most 2^30 |
| Fft.SizeAcceptedIff | web/fft/fft.js:13-15 | the constructor accepts a size exactly when its 32-bit value is a power of two in [2, 2^30] |
| Fft.SizeExamples | web/fft/fft.js:13-15 | 2 and 1024 are accepted; 0, 1, 3, 6 and -4 are refused |
| Fft.DoubledSize | web/fft/fft.js:17 | `size << 1` doubles the 32-bit value of the size, in 32 bits |
| Fft.WidthIsOdd | web/fft/fft.js:31-33 | the table width is odd and at most 29 |
| Fft.TableLength | web/fft/fft.js:34 | a table of width 2m + 1 has 2 * 4^m entries |
| Fft.OneShiftedLeft | web/fft/fft.js:34 | `1 << width` is 2^width |
| Fft.ComplexSize | web/fft/fft.js:17 | `_csize` is twice the size, except for 2^30 where it wraps to -2^31 |
| Fft.FirstPassCovers | web/fft/fft.js:123-138 | the first-pass butterflies times their length cover `_csize` exactly |
| Fft.HalfIndex | web/fft/fft.js:49-51 | `i >>> 1` halves a non-negative index |
| Fft.PassLen | web/fft/fft.js:124 | the first pass length is 4 or 8 |
| Fft.PassShape | web/fft/fft.js:122-124 | with `step = 1 << width`, `len` is 4 for an odd power and 8 for an even one, and `_csize` is len * 4^(width/2) |
| Fft.PassEntry | web/fft/fft.js:272-282 | the entry the first pass reads at t is twice t's digit reversal, and `>>> 1` halves it and the step |
| Fft.Interleave | web/fft/fft.js:62-69 | entry 2k of a complex array holds sample k (undefined past the input) and entry 2k + 1 holds 0 |
| Fft.Read | web/fft/fft.js:65 | reading past the end of the input gives undefined |
| Fft.Evens | web/fft/fft.js:48-53 | `fromComplexArray` keeps exactly the even-index entries |
| Fft.RoundTrip | web/fft/fft.js:48-69 | converting to and back from a complex array gives back the first size samples |
| Fft.RoundTripOfFullInput | web/fft/fft.js:48-69 | with at least size samples the round trip is the input's first size samples |
| Fft.Unwrap | web/fft/fft.js:48-69 | the values of a sequence of defined numbers, entry by entry |
| Fft.Mirror | web/fft/fft.js:71-78 | the mirrored spectrum keeps the length and entry k is the mirror's value at k |
| Fft.MirrorStep | web/fft/fft.js:74-77 | one iteration writes bin i's conjugate to entries 2n - i and 2n - i + 1 and nothing else |
| Fft.MirrorDone | web/fft/fft.js:74-77 | when the loop stops, the result is the full mirror |
| Fft.MirrorIsConjugate | web/fft/fft.js:71-78 | every upper bin b is the complex conjugate of bin n - b |
| Fft.MirrorKeepsLowerHalf | web/fft/fft.js:71-78 | bins 0 to n/2 and the entries from 2n on are untouched |
| Fft.MirrorIsIdempotent | web/fft/fft.js:71-78 | completing a completed spectrum changes nothing |
| Fft.FirstPassOffsetsDistinct | web/fft/fft.js:130-139 | distinct butterflies of the first pass read distinct table offsets |
| Fft.FFT.constructor | web/fft/fft.js:12-46 | an accepted size sets `size`, `_csize`, the odd width and the digit-reversal table, with no transform in progress |
| Fft.FFT.Power | web/fft/fft.js:27-29 | the power loop finds the exponent of the size |
| Fft.FFT.BitrevTable | web/fft/fft.js:34-41 | the table has 2^width entries, entry t being the digit-reversal value of t |
| Fft.FFT.BitrevEntry | web/fft/fft.js:36-40 | the inner loop computes the digit-reversal value of j |
| Fft.FFT.Create | web/fft/fft.js:12-15 | `new FFT(size)` throws the size error exactly for the sizes the test refuses |
| Fft.FFT.CreateComplexArray | web/fft/fft.js:55-60 | `_csize` zeros, or the RangeError of `new Array` exactly when `_csize` wrapped negative |
| Fft.FFT.ToComplexArray | web/fft/fft.js:62-69 | the input interleaved with zero imaginary parts, with the same error path |
| Fft.FFT.FromComplexArray | web/fft/fft.js:48-53 | a fresh array of the even-index entries |
| Fft.FFT.CompleteSpectrum | web/fft/fft.js:71-78 | the spectrum becomes its conjugate mirror |
| Fft.FFT.MirrorUpper | web/fft/fft.js:74-77 | the loop of `completeSpectrum` leaves the conjugate mirror of the spectrum it started from |
| Fft.FFT.PlannedPass | web/fft/fft.js:118-140 | the plan of the first pass: empty when `_csize` wrapped negative, else 4^(width/2) butterflies, the t-th at t * len reading twice t's digit reversal (the real pass: the reversal itself) |
| Fft.FFT.FirstPass | web/fft/fft.js:118-140 | the first pass calls 4^(width/2) butterflies, the t-th at t * len, reading twice (real pass: once) t's digit reversal with step 2^width (real pass: 4^(width/2)) |
| Fft.FFT.EmitButterflies | web/fft/fft.js:130-139 | the butterfly loop emits one call per table entry of the lower half, in order |
| Fft.FFT.PassSetup | web/fft/fft.js:122-124 | `step` and `len` as the pass shape gives them |
| Fft.FFT.DivideBy | web/fft/fft.js:112-113 | every entry is divided by the size |
| Fft.FFT.Transform | web/fft/fft.js:80-90 | the same buffer twice is refused with nothing changed; otherwise the result is the first pass's plan, `out` holds what the butterflies leave, `data` is only read, and the fields are cleared |
| Fft.FFT.RealTransform | web/fft/fft.js:92-102 | the same protocol, with the real first pass's plan |
| Fft.FFT.InverseTransform | web/fft/fft.js:104-116 | the same protocol with `_inv` 1 and the complex first pass's plan, after which every entry the butterflies left in `out` is divided by the size |
| Fft.FFT.StorePassOutput | web/fft/fft.js:118-140 | after the passes, `out` holds exactly what the butterflies leave |
| SoundMaps.Normalized | web/audio-processor.js:41-47 | the hex map has one level per byte, the byte divided by 255 |
| SoundMaps.Scaled | web/audio-processor.js:54-60 | the circle-of-fifths map has one level per byte, the byte divided by 255 and scaled by 0.9 |
| SoundMaps.MapFrame | web/synthesis-methods/grids/circle-of-fifths.js:8-15 | the stand-alone `mapFrame` gives one level per byte |
| SoundMaps.MapFrameIsScaled | web/synthesis-methods/grids/circle-of-fifths.js:8-15 | `mapFrame` is the scaled map whatever width and height it is given, and maps bytes into [0, 0.9] |
| SoundMaps.MapsOfBytes | web/audio-processor.js:41-60 | bytes normalize into [0, 1], and the circle map is 0.9 times the hex map, within [0, 0.9] |
| SoundMaps.TotalBounds | web/audio-processor.js:72 | levels in [lo, hi] add up to between n * lo and n * hi |
| SoundMaps.SineFrequency | web/audio-processor.js:71-73 | 440 Hz without data, otherwise base plus the mean level times span; SineFrequencyRange bounds it |
| SoundMaps.SineWave | web/audio-processor.js:68-77 | the sine voice plays at the sine frequency of the mapped data |
| SoundMaps.FMSynthesis | web/audio-processor.js:85-105 | the FM voice: a carrier retuned to the sine frequency when there is data, else 440 Hz, with a 220 Hz modulator at the tuning's depth |
| SoundMaps.SineFrequencyRange | web/audio-processor.js:71-73 | with no data the tone is 440 Hz; otherwise it lies within [base, base + span] |
| SoundMaps.FrequencyOfBytes | past/web/v0.9.8.0/audio-processor.js:76 | byte data sounds between 100 and 1000 Hz in the web version and between 200 and 600 Hz in v0.9.8.0, under either map |
| SoundMaps.SelectGrid | web/audio-processor.js:120-130 | the circle map is chosen exactly for "circle-of-fifths"; every other grid type falls back to the hex map |
| SoundMaps.SelectEngine | web/audio-processor.js:124-131 | the FM voice is chosen exactly for "fm-synthesis"; every other engine falls back to the sine voice |
| SoundMaps.Played | web/audio-processor.js:116-133 | the sound a frame plays: the selected engine's voice of the selected grid's map of the data; PlayedSound states what it is |
| SoundMaps.PlayedSound | web/audio-processor.js:85-133 | the sound played is the sine, or an FM voice whose carrier follows the sine formula with a 220 Hz modulator at the tuning's depth; for byte data it stays within the tuning's range |
| WebAudioProcessor.PairedAppend | web/audio-processor.js:138 | appending a source and its 0.5 gain stage keeps the node list in pairs |
| WebAudioProcessor.AudioProcessor.constructor | web/audio-processor.js:6-11 | no context and no active nodes at load |
| WebAudioProcessor.AudioProcessor.InitializeAudio | web/audio-processor.js:17-19 | the context is stored as given and the nodes are kept |
| WebAudioProcessor.Stoppable | web/audio-processor.js:25-27 | the nodes on which `stop()` succeeds: the sources, in order |
| WebAudioProcessor.Unstoppable | web/audio-processor.js:25-30 | the nodes on which `stop()` throws and the warning is logged: the gain stages, in order |
| WebAudioProcessor.SplitCounts | web/audio-processor.js:24-31 | every node is tried once and lands in exactly one of the two lists |
| WebAudioProcessor.PairedLast | web/audio-processor.js:138 | a non-empty paired list ends with a source and its 0.5 gain stage, after a shorter paired list |
| WebAudioProcessor.PairedSplit | web/audio-processor.js:24-31 | of the (source, gain) pairs the list holds, the k-th source is stopped and the k-th 0.5 gain stage is left connected |
| WebAudioProcessor.AudioProcessor.StopEach | web/audio-processor.js:24-31 | the loop over the nodes returns exactly the stopped sources and the warned, still connected stages, each in order |
| WebAudioProcessor.AudioProcessor.StopAudio | web/audio-processor.js:23-33 | the sources are stopped and disconnected in order, every gain stage throws, warns and stays connected, and the list is emptied |
| WebAudioProcessor.AudioProcessor.PlayAudio | web/audio-processor.js:116-144 | without a context nothing changes; otherwise the chosen sound and a 0.5 gain stage are appended to the active nodes; the previous frames come back unchanged |
| LegacyAudioProcessor.AudioProcessor.constructor | past/web/v0.9.8.0/audio-processor.js:6-11 | no context and no active nodes at load |
| LegacyAudioProcessor.AudioProcessor.InitializeAudio | past/web/v0.9.8.0/audio-processor.js:17-19 | the context is stored as given |
| LegacyAudioProcessor.AudioProcessor.StopAudio | past/web/v0.9.8.0/audio-processor.js:24-38 | the active nodes are stopped and dropped, and a running context is suspended |
| LegacyAudioProcessor.AudioProcessor.PlayAudio | past/web/v0.9.8.0/audio-processor.js:120-152 | without a context nothing changes; otherwise what played is stopped and only the new source and its gain stage stay active |
| SineWaveEngine.Harmonics | future/web/synthesis-methods/engines/sine-wave.js:27-51 | the harmonic loop keeps the bank's length |
| SineWaveEngine.Step | future/web/synthesis-methods/engines/sine-wave.js:7-57 | one iteration keeps the bank's length |
| SineWaveEngine.Loop | future/web/synthesis-methods/engines/sine-wave.js:6-58 | the loop keeps the bank's length |
| SineWaveEngine.PlaySineWave | future/web/synthesis-methods/engines/sine-wave.js:3-59 | the notes are sorted loudest first, stably, and the oscillator array ends as the specification fold `Loop` over them |
| SineWaveEngine.Iteration | future/web/synthesis-methods/engines/sine-wave.js:7-57 | one iteration of the array loop is `Step` on the array's contents |
| SineWaveEngine.WriteHarmonics | future/web/synthesis-methods/engines/sine-wave.js:27-51 | the harmonic loop on the array is `Harmonics` on its contents |
| SineWaveEngine.HarmonicsTouchLater | future/web/synthesis-methods/engines/sine-wave.js:27-51 | the harmonic loop moves `oscIndex` forward by at most the number of harmonics and never touches an oscillator at or before it |
| SineWaveEngine.LoopInvariant | future/web/synthesis-methods/engines/sine-wave.js:6-58 | while notes remain `oscIndex` is at least k, and oscillators before k hold what their own iteration wrote |
| SineWaveEngine.FinalOscillators | future/web/synthesis-methods/engines/sine-wave.js:6-58 | oscillator j ends active exactly when iteration j handed it a note, and then plays that note, not a harmonic; an oscillator with no note ends with gain 0 |
| SineWaveEngine.HarmonicsAllWritten | future/web/synthesis-methods/engines/sine-wave.js:23-51 | with at most two harmonics that fit, each is written at half gain on the next oscillators and `oscIndex` moves past them |
| SineWaveEngine.ThirdHarmonicDropped | future/web/synthesis-methods/engines/sine-wave.js:29 | the inner guard checks `oscIndex + h` after `oscIndex` has moved, so a third harmonic with one spare oscillator is dropped |
| SineWaveEngine.EveryThirdIndex | future/web/synthesis-methods/engines/sine-wave.js:6-58 | with two harmonics per note, iteration k starts at note 3k |
| SineWaveEngine.EveryThirdNote | future/web/synthesis-methods/engines/sine-wave.js:6-58 | with two harmonics per note, oscillator i ends playing note 3i, so two notes in three are never played |
| FMEngine.Step | future/web/synthesis-methods/engines/fm-synthesis.js:7-38 | one iteration keeps the bank's length |
| FMEngine.Loop | future/web/synthesis-methods/engines/fm-synthesis.js:6-39 | the loop keeps the bank's length |
| FMEngine.PlayFMSynthesis | future/web/synthesis-methods/engines/fm-synthesis.js:3-40 | the notes are sorted loudest first, and the array and the modulators created end as the fold `Loop` gives them |
| FMEngine.Iteration | future/web/synthesis-methods/engines/fm-synthesis.js:7-38 | one iteration of the array loop is `Step` on the array's contents |
| FMEngine.IndexAhead | future/web/synthesis-methods/engines/fm-synthesis.js:6-39 | while notes remain, `oscIndex` after k iterations is at least k |
| FMEngine.LoopInvariant | future/web/synthesis-methods/engines/fm-synthesis.js:6-39 | oscillators before k hold what their own iteration wrote |
| FMEngine.StepKeepsMade | future/web/synthesis-methods/engines/fm-synthesis.js:15-23 | an iteration keeps the modulators in oscillator order, each on the oscillator of its note |
| FMEngine.ModulatorInvariant | future/web/synthesis-methods/engines/fm-synthesis.js:6-39 | after every iteration the modulators so far drive earlier oscillators, in order |
| FMEngine.FinalOscillators | future/web/synthesis-methods/engines/fm-synthesis.js:6-39 | oscillator j ends active exactly when handed a note and then plays it; one without a note ends with gain 0; each modulator drives an active oscillator an octave above it at 100 times its gain, in oscillator order |
| FMEngine.IndexAdvance | future/web/synthesis-methods/engines/fm-synthesis.js:15-34 | a note with harmonics moves `oscIndex` by two when the next oscillator exists, any other by one |
| FMEngine.EverySecondIndex | future/web/synthesis-methods/engines/fm-synthesis.js:6-39 | with harmonics on every note, iteration k starts at note 2k |
| FMEngine.EverySecondNote | future/web/synthesis-methods/engines/fm-synthesis.js:6-39 | with harmonics on every note, oscillator i ends playing note 2i, so the odd notes are never played |
| LegacyFMEngine.HarmonicVoices | past/web/v0.9.8.5/web/ui/synthesis-methods/engines/fm-synthesis.js:15-30 | the harmonic loop keeps the bank's length |
| LegacyFMEngine.Step | past/web/v0.9.8.5/web/ui/synthesis-methods/engines/fm-synthesis.js:6-37 | one iteration keeps the bank's length |
| LegacyFMEngine.Loop | past/web/v0.9.8.5/web/ui/synthesis-methods/engines/fm-synthesis.js:5-38 | the loop keeps the bank's length |
| LegacyFMEngine.PlayFMSynthesis | past/web/v0.9.8.5/web/ui/synthesis-methods/engines/fm-synthesis.js:3-39 | the notes are sorted loudest first, and the array and the modulators created end as the fold `Loop` gives them |
| LegacyFMEngine.Iteration | past/web/v0.9.8.5/web/ui/synthesis-methods/engines/fm-synthesis.js:6-37 | one iteration of the array loop is `Step` on the array's contents |
| LegacyFMEngine.WriteHarmonics | past/web/v0.9.8.5/web/ui/synthesis-methods/engines/fm-synthesis.js:15-30 | the harmonic loop on the array is `HarmonicVoices` on its contents |
| LegacyFMEngine.HarmonicVoicesWrites | past/web/v0.9.8.5/web/ui/synthesis-methods/engines/fm-synthesis.js:15-30 | harmonic h goes to oscillator oscIndex + 1 + h at half gain, with one new modulator on it an octave above the note at 100 times its intensity; all other oscillators and the earlier modulators are kept |
| LegacyFMEngine.IndexCount | past/web/v0.9.8.5/web/ui/synthesis-methods/engines/fm-synthesis.js:5-38 | `oscIndex` counts the notes played plus the modulators created |
| LegacyFMEngine.LoopInvariant | past/web/v0.9.8.5/web/ui/synthesis-methods/engines/fm-synthesis.js:5-38 | oscillators before k hold note j, or a fade-out once the notes ran out |
| LegacyFMEngine.FinalOscillators | past/web/v0.9.8.5/web/ui/synthesis-methods/engines/fm-synthesis.js:5-38 | oscillator j ends active exactly when j < |notes| and then plays note j; later ones end with gain 0, so harmonic writes are overwritten |
| LegacyFMEngine.MadeForWiden | past/web/v0.9.8.5/web/ui/synthesis-methods/engines/fm-synthesis.js:19-24 | a modulator made for one of the first k notes is made for one of the first k + 1 |
| LegacyFMEngine.MadeWiden | past/web/v0.9.8.5/web/ui/synthesis-methods/engines/fm-synthesis.js:7-37 | an iteration that makes no modulator keeps the modulator invariant |
| LegacyFMEngine.StepKeepsMade | past/web/v0.9.8.5/web/ui/synthesis-methods/engines/fm-synthesis.js:7-37 | every iteration keeps the modulator invariant |
| LegacyFMEngine.ModulatorInvariant | past/web/v0.9.8.5/web/ui/synthesis-methods/engines/fm-synthesis.js:5-38 | after every iteration the modulators drive distinct oscillators after 0 and up to `oscIndex`, in order, each an octave above an earlier-played note at 100 times its intensity |
| LegacyFMEngine.FinalModulators | past/web/v0.9.8.5/web/ui/synthesis-methods/engines/fm-synthesis.js:5-38 | at the end, one modulator per harmonic written (`oscIndex` minus the notes played), all satisfying that invariant |
| GridDispatcher.SelectsCircle | web/grid-dispatcher.js:6-12 | exactly the grid type "circle-of-fifths" selects the circle mapper; every other value, named or not, falls to the hex tonnetz |
| GridDispatcher.MappedNotes | web/grid-dispatcher.js:5-13 | the notes are those of the circle mapper for "circle-of-fifths" and those of the hex mapper for every other grid type |
| GridDispatcher.MapFrame | web/grid-dispatcher.js:5-13 | the dispatch returns the selected mapper's notes and the frame as the next previous frame |
| GridDispatcher.DispatchBounds | web/grid-dispatcher.js:5-13 | the circle mapper yields at most 8 notes and the hex mapper at most 16; without a previous frame both yield none |
| FutureAudioProcessor.StateName | future/web/audio-processor.js:28 | the `state` string of a context: running, suspended or closed |
| FutureAudioProcessor.InitError | future/web/audio-processor.js:28-56 | the logError message of a context that is not running: "Audio init error: " and the thrown message naming the state |
| FutureAudioProcessor.Resumed | future/web/audio-processor.js:23-26 | after the resume attempt the context runs unless it was closed |
| FutureAudioProcessor.Halves | future/web/audio-processor.js:80-88 | each half holds half the columns of every row |
| FutureAudioProcessor.EngineResult | future/web/audio-processor.js:94-111 | the engine keeps the number of oscillators |
| FutureAudioProcessor.PlayWith | future/web/audio-processor.js:94-111 | the oscillator array ends as the selected engine leaves it |
| FutureAudioProcessor.AudioProcessor.constructor | future/web/audio-processor.js:6-9 | no context, not initialised, no oscillators, nothing spoken or logged |
| FutureAudioProcessor.AudioProcessor.SetAudioContext | future/web/audio-processor.js:11-14 | the context is replaced and the flag cleared; oscillators, speech and log are kept |
| FutureAudioProcessor.AudioProcessor.InitializeAudio | future/web/audio-processor.js:16-68 | an initialised processor or a missing context returns false and changes nothing; a context still not running after the resume attempt returns false, drops the context, logs the state in the error and speaks the failure; a running one returns true, holds the context, creates 24 silent records and speaks "Audio initialized" in the settings language |
| FutureAudioProcessor.AudioProcessor.PlayAudio | future/web/audio-processor.js:70-117 | without an initialised, running context the previous frames come back and nothing changes; otherwise both halves are mapped with pans -1 and +1, their notes concatenated in that order drive the selected engine, and the halves become the next previous frames |
| FutureAudioProcessor.AudioProcessor.CleanupAudio | future/web/audio-processor.js:119-156 | without an initialised context nothing changes; otherwise every old record's gain is set to 0, the records are dropped, the flag cleared and the context released |
| FutureAudioProcessor.AudioProcessor.StopAudio | future/web/audio-processor.js:158-160 | stopping is cleaning up |
| FutureAudioProcessor.FirstFrameSilent | future/web/audio-processor.js:70-117 | on the first frame (no previous frames) no region has moved, so every oscillator ends inactive at gain 0 whatever the engine |
| V0985AudioProcessor.Resumed | past/web/v0.9.8.5/web/audio-processor.js:14-16 | after the resume attempt the context runs unless it was closed, and is closed only if it was |
| V0985AudioProcessor.PlaysFM | past/web/v0.9.8.5/web/audio-processor.js:64-72 | exactly "fm-synthesis" selects the FM engine; every other value, including unknown ones, selects the sine engine |
| V0985AudioProcessor.AudioProcessor.constructor | past/web/v0.9.8.5/web/audio-processor.js:6-8 | no context, not initialised, no oscillators, nothing spoken or played |
| V0985AudioProcessor.AudioProcessor.InitializeAudio | past/web/v0.9.8.5/web/audio-processor.js:10-43 | an initialised processor or a missing context changes nothing; otherwise the resumed context is held, 32 silent records are appended to the existing ones, whatever the resumed state, and "Audio initialized" is spoken |
| V0985AudioProcessor.AudioProcessor.PlayAudio | past/web/v0.9.8.5/web/audio-processor.js:45-75 | without the flag the previous frames come back and nothing changes (the context state is not checked); otherwise both halves are mapped with pans -1 and +1, the halves become the next previous frames, and the concatenated notes drive the FM engine on "fm-synthesis" and the sine engine on anything else |
| V0985AudioProcessor.Pushed | past/web/v0.9.8.5/web/audio-processor.js:17-28 | the records array grows by 32 silent records after the old ones |
| V0985AudioProcessor.FMLoudestFirst | past/web/v0.9.8.5/web/audio-processor.js:63-67 | in the FM branch oscillator j is active exactly when j is below the number of notes, and the voiced gains never increase with the index |
| SpeechTemplates.SpeechLanguage | web/ui/utils.js:34 | an unset (empty) language falls back to en-US; a set one is used as it is |
| SpeechTemplates.IndexFrom | web/ui/utils.js:30 | the result is -1 exactly when the pattern does not occur from the start position on, and otherwise the first position where it does |
| SpeechTemplates.Substitution | web/ui/utils.js:30 | GetSubstitution: the replacement with its `$$`, `$&`, `` $` `` and `$'` patterns expanded; SubstitutionPlain and SubstitutionPatterns state it |
| SpeechTemplates.ReplaceFirst | web/ui/utils.js:30 | `replace` with a string pattern: only the first occurrence changes; ReplaceFirstOccurrence, ReplaceAbsent and ReplaceOnlyFirst state it |
| SpeechTemplates.SubstitutionPlain | web/ui/utils.js:30 | a replacement without `$` is inserted literally |
| SpeechTemplates.SubstitutionPatterns | web/ui/utils.js:30 | in a string replacement `$$` inserts a dollar sign, `$&` the match, `` $` `` the text before it and `$'` the text after it |
| SpeechTemplates.ReplaceFirstOccurrence | web/ui/utils.js:30 | replacing a placeholder changes its first occurrence into the value and keeps the text on both sides |
| SpeechTemplates.ReplaceAbsent | web/ui/utils.js:30 | a text without the placeholder is unchanged |
| SpeechTemplates.ReplaceOnlyFirst | web/ui/utils.js:30 | a second occurrence of the same placeholder survives the replacement |
| WebSpeech.Lookup | web/ui/utils.js:28 | a key without a translation, or with an empty one, is spoken as the key itself; otherwise the translation is used |
| WebSpeech.Speak | web/ui/utils.js:24-36 | without speech synthesis nothing is spoken; otherwise exactly one utterance, the looked-up text with the parameters substituted, in the settings language or en-US |
| WebSpeech.ApplyParams | web/ui/utils.js:29-31 | the parameters replaced one after the other, in entry order; ParamsInOrder states it |
| WebSpeech.ParamsInOrder | web/ui/utils.js:29-31 | parameters are applied in entry order, each to the text the earlier ones left |
| WebSpeech.OneParam | web/ui/utils.js:24-36 | one parameter replaces the first placeholder of the translation; with no translations loaded it is applied to the key |
| LocalizedSpeech.Wording | past/web/v0.9.8.6/web/ui/utils.js:47-58 | the English wording is chosen exactly for en-US and the Spanish one for every other language |
| LocalizedSpeech.ApplyState | past/web/v0.9.8.6/web/ui/utils.js:44-62 | the state entries applied in entry order, each replacing its placeholder with its localized value; StateIgnoredElsewhere and NamedValues state it |
| LocalizedSpeech.Localized | past/web/v0.9.8.6/web/ui/utils.js:44-62 | a 'state' entry replaces nothing unless the element is settingsToggle or startStop; keys other than state, mode, grid, engine and lang insert their value as it is |
| LocalizedSpeech.Message | past/web/v0.9.8.6/web/ui/utils.js:35-40 | the message is the translation when it is non-empty and the element id otherwise, so it is empty only for an empty id without translation |
| LocalizedSpeech.Speak | past/web/v0.9.8.6/web/ui/utils.js:32-72 | an empty message speaks nothing; otherwise one utterance of the message with the state entries applied in order, in the settings language |
| LocalizedSpeech.StateIgnoredElsewhere | past/web/v0.9.8.6/web/ui/utils.js:45-50 | for any element but settingsToggle and startStop, state entries leave the message unchanged whatever their values |
| LocalizedSpeech.NamedValues | past/web/v0.9.8.6/web/ui/utils.js:47-58 | mode, grid, engine, lang and the settings-toggle state insert the first wording exactly for day, hex-tonnetz, sine-wave, en-US and on, and the second for any other value, in English only for en-US |
| LocalizedSpeech.FailedLoad | past/web/v0.9.8.6/web/ui/utils.js:11-25 | when the translations fail to load the element id itself is spoken, with the state applied |
| PrototypeSpeech.OrElse | past/ui/utils.js:15 | a present, non-empty field is used; an absent or empty one gives the fallback |
| PrototypeSpeech.English | past/ui/utils.js:13-21 | the en-US table has a non-empty entry exactly for the seven element ids |
| PrototypeSpeech.Spanish | past/ui/utils.js:22-30 | the es-ES table has a non-empty entry exactly for the same seven ids |
| PrototypeSpeech.Speak | past/ui/utils.js:11-39 | a language without a table fails; an id neither table has speaks nothing; any other id speaks one utterance in the settings language whose text is that language's table entry |
| PrototypeSpeech.SettingsToggleWording | past/ui/utils.js:14-23 | the settings toggle says enabled / activadas exactly when the state field is 'on' |
| PrototypeSpeech.StartStopWording | past/ui/utils.js:19-28 | in English start/stop speaks "Navigation " and the state field, "started" when absent; in Spanish "iniciada" only for 'started' and "detenida" otherwise |
| PrototypeSpeech.LanguageFallback | past/ui/utils.js:32-33 | an unset language speaks English; a language without a table fails for every element |
| FutureState.Defaults | future/web/state.js:4-15 | the first grid, engine and language of the configuration lists, outside settings mode, no streams, no audio interval, automatic rate with the 30 fps interval, day mode |
| FutureState.AppState.constructor | future/web/state.js:4-20 | the default settings, frame count 0, no previous frames, no frame skipped |
| FutureState.AppState.SetStream | future/web/state.js:22-24 | only the settings' stream changes |
| FutureState.AppState.SetAudioInterval | future/web/state.js:26-28 | only the settings' audio interval changes |
| FutureState.AppState.SetFrameCount | future/web/state.js:30-32 | only the frame count changes |
| FutureState.AppState.SetPrevFrameDataLeft | future/web/state.js:34-36 | only the left previous frame changes |
| FutureState.AppState.SetPrevFrameDataRight | future/web/state.js:38-40 | only the right previous frame changes |
| FutureState.AppState.SetSkipFrame | future/web/state.js:42-44 | only the skip flag changes |
| FpsCycler.IndexOf | future/web/ui/ui-settings.js:68 | -1 exactly when the value is absent; otherwise the first index holding it |
| FpsCycler.NextFps | future/web/ui/ui-settings.js:62-75 | a press that leaves the rate manual always leaves a listed rate |
| FpsCycler.AutoCycle | future/web/ui/ui-settings.js:62-75 | from automatic rate the presses give 20, 30 and 60 fps and then automatic rate again, keeping the 60 fps interval |
| FpsCycler.Periodic | future/web/ui/ui-settings.js:62-75 | every four presses from automatic rate return to it, so the cycle has period four |
| FpsCycler.Presses | future/web/ui/ui-settings.js:62-75 | n presses of the corrected button; AutoCycle, Periodic and PressesAdd state where they lead |
| FpsCycler.PressesAdd | future/web/ui/ui-settings.js:62-75 | m presses followed by n presses are m + n presses |
| FpsCycler.Unlisted | future/web/ui/ui-settings.js:66-73 | a manual rate outside the list moves to 20 fps (index -1 plus one), and 30 fps moves to 60 |
| FpsCycler.RecoveredFps | future/web/ui/ui-settings.js:67 | `1000 / (1000 / rate)` in doubles equals the rate only for 20 and falls just below it for 30 and 60 |
| FpsCycler.NextFpsAsWritten | future/web/ui/ui-settings.js:66-74 | with the floating-point recovery of the rate, a press either gives a listed manual rate or turns automatic rate on |
| FpsCycler.PressesAsWritten | future/web/ui/ui-settings.js:62-75 | as written, repeated presses keep a listed rate or automatic rate |
| FpsCycler.ThirtyGoesBack | future/web/ui/ui-settings.js:67-72 | as written, the press from 30 fps goes back to 20, where the corrected press goes on to 60 |
| FpsCycler.AsWrittenNeverSixty | future/web/ui/settings-handlers.js:71-79 | as written, from automatic, 20 or 30 fps no number of presses reaches 60 fps or returns to automatic rate |
| EventDispatcher.Logged | future/web/ui/event-dispatcher.js:25-26 | the log never exceeds 50 entries and ends with the new message |
| EventDispatcher.LoggedAll | future/web/ui/event-dispatcher.js:24-29 | the log stays within 50 entries over any run of messages |
| EventDispatcher.LogKeepsNewest | future/web/ui/event-dispatcher.js:24-29 | after any run of messages the log holds exactly the newest min(50, n) messages of all those logged, oldest first |
| EventDispatcher.ErrorText | future/web/ui/event-dispatcher.js:32 | the text `window.onerror` logs: the message, " at ", the source, and the line and column after colons |
| EventDispatcher.MessageOf | future/web/ui/event-dispatcher.js:24 | the destructured `message` is defined exactly when the detail carries one, and is then that text |
| EventDispatcher.Joined | future/web/ui/event-dispatcher.js:13 | `join` prints a defined entry as itself and an undefined one as the empty string |
| EventDispatcher.Substituted | future/web/ui/utils.js:35-37 | the `speak` callback substitutes the message itself, or "undefined" when it is undefined, since `replace` converts its replacement to a string |
| EventDispatcher.ShowOf | future/web/ui/event-dispatcher.js:8 | the destructured `show` is true exactly when the detail carries a true `show` |
| EventDispatcher.Dispatcher.constructor | future/web/ui/event-dispatcher.js:4-6 | an empty log, an empty settings copy, the panel hidden, nothing spoken |
| EventDispatcher.Dispatcher.ToggleDebug | future/web/ui/event-dispatcher.js:8-22 | the panel is shown exactly as asked and lists the current log; log, settings and speech are kept |
| EventDispatcher.Dispatcher.LogError | future/web/ui/event-dispatcher.js:24-29 | the message is logged as `join` prints it, keeping the newest 50, the panel is shown with the log, and the error is spoken with the message as `replace` renders it |
| EventDispatcher.Dispatcher.OnError | future/web/ui/event-dispatcher.js:31-34 | an uncaught error logs and speaks "message at source:line:col", shows the panel with the log and is reported handled |
| EventDispatcher.Dispatcher.DispatchEvent | future/web/ui/event-dispatcher.js:36-48 | updateSettings stores its detail as the settings copy; logError and toggleDebug throw exactly on an undefined detail, changing nothing else; otherwise logError logs, shows and speaks the detail's message and toggleDebug shows the panel, listing the log, exactly when the detail's `show` is true; no other event touches log, panel or speech |
| UiSettings.SetupEvents | future/web/ui/ui-settings.js:6-11 | setup dispatches nothing exactly when all four buttons exist, and otherwise reports the missing elements |
| UiSettings.Pressed | future/web/ui/ui-settings.js:62-75 | a frame-rate press changes only the automatic flag and the interval, as the cycle prescribes |
| UiSettings.Button1 | future/web/ui/ui-settings.js:24-36 | in settings mode a startStop event with settings mode true; otherwise nothing |
| UiSettings.Button2 | future/web/ui/ui-settings.js:39-51 | in settings mode a toggleMic event with settings mode true; otherwise nothing |
| UiSettings.Button3 | future/web/ui/ui-settings.js:54-92 | in settings mode toggleInput then updateUI, the state unchanged; otherwise the press advances the cycle, the new interval is dispatched, the rate or "auto" is spoken, then updateUI |
| UiSettings.Button6 | future/web/ui/ui-settings.js:95-111 | settings mode flips, then updateUI and a toggleDebug that shows the panel exactly in settings mode; nothing else changes |
| UiSettings.PressesFromDefaults | future/web/ui/ui-settings.js:62-75 | from the initial settings the presses run 20, 30, 60 fps and automatic rate |
| SettingsHandlers.ModeEvent | future/web/ui/settings-handlers.js:23-139 | exactly buttons 1, 2, 4 and 5 dispatch a plain event, always carrying the current settings mode |
| SettingsHandlers.DispatchOnly | future/web/ui/settings-handlers.js:23-139 | those buttons dispatch exactly their one event |
| SettingsHandlers.Button3 | future/web/ui/settings-handlers.js:58-101 | as the ui-settings frame-rate button: toggleInput in settings mode, otherwise the cycle step, the interval event and the spoken rate, then updateUI |
| SettingsHandlers.Button6 | future/web/ui/settings-handlers.js:142-161 | settings mode flips, then updateUI and a toggleDebug showing the panel exactly in settings mode |

## Left out

- Web Audio, pyo, SpeechSynthesis, fetch, getUserMedia, the DOM, vibration, timers, `performance.now` and the console are foreign. Their effects are represented as recorded targets, utterances and events, or left out.
- Loaded translation tables are parameters of the speech models, and a failed load is the empty table.
- Asynchrony is not modelled: every `await` is taken to complete before the next statement.
- Floating-point rounding is not modelled. Amplitudes, gains, pans and the byte maps are Dafny reals, and the Float32 storage of the mapped frames is exact here. The one exception is the frame-rate lookup described under Findings.
- Frequencies in Hz computed with `Math.pow` are not modelled. Pitches are indices in the semitone table above 100 Hz, and a harmonic adds its interval in semitones.
- The node-list processors' frequency formulas stay in Hz, as reals.
- The FFT twiddle table and the butterfly arithmetic are not modelled (web/fft/fft.js:19-25 and the radix-2/radix-4 passes). Only the index plan of the first pass is modelled. What the butterflies leave in `out` is the parameter `passOutput` of Fft.FFT.Transform, Fft.FFT.RealTransform and Fft.FFT.InverseTransform.
- ToComplexArray: the optional `storage` argument (web/fft/fft.js:62-63) is not modelled. When it is passed, the source writes into the caller's array, returns that array, and loops over its length rather than `_csize`; the model always returns a fresh array of `_csize` entries.
- FromComplexArray: the optional `storage` argument (web/fft/fft.js:48-49) is not modelled. When it is passed, the source writes the even entries into the caller's array and returns it, so the result aliases `storage` and keeps its length; the model always returns a fresh array of half the length.
- CompleteSpectrum requires the spectrum to hold at least `_csize` entries. A shorter JavaScript Array would grow to `_csize` entries, and that growth is not modelled.
- Fft.FFT.Create takes an integer size. A non-integer size, which `size | 0` (web/fft/fft.js:13) truncates before the test, is outside the model.
- numpy's `exp`, `cos`, `sin`, `pi`, `cv2` image loading and resizing, and `scipy.signal.convolve2d` are not interpreted. They are parameters, with only shape and `cos² + sin² = 1` assumed where a lemma needs them.
- The pyo servers are described as data: the graph, the channels and the record duration. Their boot, start and stop calls are not modelled.
- The `catch` paths reached only when a browser call throws are not modelled: speech failure, a cleanup error, a button handler's error speech, and a failed `import()` of an engine module.
- `initializeMicAudio` and `micSource` of future/web/audio-processor.js are not modelled. They only wrap a foreign media-stream node.
- The resumed audio context is a value, so aliasing between the caller's context and the stored one is not captured.
- past/web/v0.9.8.5/web/audio-processor.js imports ./grid-dispatcher.js, ./synthesis-methods/engines/sine-wave.js and ./synthesis-methods/engines/fm-synthesis.js beside it; none of the three is part of this model. Notes handed to that sine engine are recorded.
- V0985AudioProcessor.AudioProcessor.PlayAudio: GridDispatcher, the model of web/grid-dispatcher.js, stands in for v0.9.8.5's missing ./grid-dispatcher.js.
- V0985AudioProcessor.AudioProcessor.PlayAudio: LegacyFMEngine, the model of past/web/v0.9.8.5/web/ui/synthesis-methods/engines/fm-synthesis.js, stands in for the ./synthesis-methods/engines/fm-synthesis.js that v0.9.8.5's audio processor imports.
- FutureAudioProcessor.AudioProcessor.PlayAudio: GridDispatcher, the model of web/grid-dispatcher.js, stands in for the ./grid-dispatcher.js that future/web/audio-processor.js imports, which is not part of this model.
- future/web/synthesis-methods/engines/fm-synthesis.js imports an audio-processor.js beside it, which is not part of this model. The oscillator array is passed in.
- Object keys that JavaScript inherits from `Object.prototype` (such as "constructor") are not modelled. Lookups see only the table's own keys, and an object's entries are given as a sequence in entry order.
- LocalizedSpeech.Speak and PrototypeSpeech.Speak take speech synthesis to be present. Both sources call `window.speechSynthesis.speak` without checking for it; v0.9.8.6 would catch the resulting error and speak nothing.
- FutureAudioProcessor.AudioProcessor.PlayAudio, V0985AudioProcessor.AudioProcessor.PlayAudio and TonnetzMain.TonnetzApp.PlayAudio require an even frame width. With an odd width the source's half width is fractional, and the typed-array writes at fractional indices are not modelled.
- FutureAudioProcessor.AudioProcessor.CleanupAudio states the gain reset and the dropped records; stopping and disconnecting the nodes and their modulators are foreign calls and not stated.
- FutureAudioProcessor.EngineResult models the engine module as the sine or FM engine of the future version that `availableEngines` names. A play function missing from its module (an error message only) is not modelled.
- TonnetzMain's performance counters, its debug overlay and its camera start/stop handler are not modelled. They are DOM and timer code.
- FpsCycler.NextFps compares the current rate exactly rather than through the floating-point recovery `1000 / updateInterval`. The as-written behaviour is modelled separately, see Findings.
- SineWaveEngine.Loop, FMEngine.Loop and LegacyFMEngine.Loop state only that the bank keeps its length. What they compute is stated by the FinalOscillators lemmas beside them.

## Findings

| source | as written | input that shows it | evidently intended | confidence | as-written member | corrected member |
|---|---|---|---|---|---|---|
| future/web/ui/ui-settings.js:66-74 | the current rate is recovered as `1000 / settings.updateInterval` in floating point and looked up in `[20, 30, 60]` with `indexOf`; 1000 / (1000 / 30) is 29.999999999999996 and 1000 / (1000 / 60) is 59.99999999999999, so the lookup fails for 30 and 60 and gives index -1 | automatic rate, then presses: 20, 30, then 20 again (not 60); 60 fps and the return to automatic rate are never reached | presses cycle automatic, 20, 30, 60, automatic | high, not executed | FpsCycler.AsWrittenNeverSixty | FpsCycler.AutoCycle |
| future/web/ui/settings-handlers.js:71-79 | the same recovery and lookup as in ui-settings.js | automatic rate, then presses: 20, 30, 20 | presses cycle automatic, 20, 30, 60, automatic | high, not executed | FpsCycler.ThirtyGoesBack | FpsCycler.Periodic |
