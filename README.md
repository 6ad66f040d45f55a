# Solo Ensemble harmoniser — a Dafny model

Solo Ensemble is a browser vocal harmoniser. A singer's voice is captured from the
microphone. An audio worklet detects its pitch. The detected note is snapped to the chosen
key and scale, and a four-voice chord (bass, tenor, alto, soprano) is built on it in one of
four voicings. The chord is sounded by a synthesiser: plain oscillators, or a formant
("vowel") synthesiser made of harmonics, band-pass formant filters and breath noise. The
harmony can also be sent out as MIDI. Performances are recorded as tracks. The tracks loop
bar-synchronously against a metronome, can be muted or soloed, can be deleted with undo and
redo, and can be exported as a 16-bit PCM WAV file. A keyboard shortcut layer drives the
transport.

This project models that core in Dafny, one module per source file:

- the pure parts as datatypes, functions and lemmas: note and MIDI arithmetic, scales,
  quantisation and voicings; MIDI decoding; the WAV layout; the shortcut dispatcher; the
  track audibility rule;
- the stateful parts as classes whose methods update fields, with `modifies` frames and
  postconditions: the pitch-detector worklets with their ring buffers, the synthesiser hooks
  and the formant synthesiser, the looper, the metronome scheduler, the undo/redo history,
  the recorders, the MIDI hook and the application's event handlers;
- the in-place algorithms over arrays as methods with loops proved against specification
  functions: the difference function and its cumulative normalisation, the absolute
  threshold search, the WAV writer.

Web Audio nodes are values: an oscillator, gain or filter is a record of its settings and its
started, stopped and connected flags. Each owner keeps a log of the nodes it has torn down,
so "every old node was stopped" can be stated. `midiToFrequency` (440 · 2^((m − 69)/12)) is
the parameter `hz: int -> real`. Clocks (`AudioContext.currentTime`, `performance.now()`,
`Date.now()`) are method parameters. Timers are explicit methods that the caller says have
fired.

Module map (Dafny file — source file):

| Dafny file | source file |
|---|---|
| common.dfy | shared: `Option`, `Result`, the voice roles, JavaScript `%` and number printing |
| harmony.dfy | src/utils/harmony.ts |
| signal.dfy | ring-buffer writes and sums shared by both pitch-detector worklets |
| pitch_detector.dfy | src/worklets/pitch-detector.js |
| pitch_detector_optimized.dfy | src/worklets/pitch-detector-optimized.js |
| audio_nodes.dfy | the Web Audio node values and the insertion-ordered `Map` used by the hooks |
| formant_synthesis.dfy | src/utils/formantSynthesis.ts |
| simple_synthesizer.dfy | src/hooks/useSimpleSynthesizer.ts |
| formant_synthesizer_hook.dfy | src/hooks/useFormantSynthesizer.ts |
| synthesizer.dfy | src/hooks/useSynthesizer.ts |
| debug_synthesizer.dfy | src/hooks/useDebugSynthesizer.ts |
| track_list.dfy | src/components/TrackList.tsx |
| looper.dfy | src/hooks/useLooper.ts |
| metronome.dfy | src/hooks/useMetronome.ts |
| undo_redo.dfy | src/hooks/useUndoRedo.ts |
| recorder.dfy | src/hooks/useRecorder.ts |
| recorder_with_undo.dfy | src/hooks/useRecorderWithUndo.ts |
| midi.dfy | src/hooks/useMIDI.ts |
| audio_export.dfy | src/utils/audioExport.ts |
| keyboard_shortcuts.dfy | src/hooks/useKeyboardShortcuts.ts |
| app.dfy | src/App.tsx |

## Model

| member | source | states |
|---|---|---|
| Common.JsRem | src/utils/harmony.ts:19-23 | JavaScript's `%`: the result agrees with Euclidean `%` on non-negative dividends and has the dividend's sign (and magnitude below the divisor) on negative ones |
| Common.NatToString | src/utils/harmony.ts:22 | a printed natural number is a non-empty string of decimal digits |
| Common.IntToString | src/utils/harmony.ts:22 | a printed integer is non-empty and starts with '-' exactly when it is negative |
| Common.NatToStringInjective | src/utils/harmony.ts:22 | different natural numbers print differently |
| Common.IntToStringInjective | src/utils/harmony.ts:22 | different integers print differently, so a printed octave identifies the octave |
| Harmony.NoteIndex | src/utils/harmony.ts:3 | `noteNames.indexOf`: the index lies in −1..11, a non-negative index names the given note, and −1 comes exactly for a string that is not one of the twelve names |
| Harmony.NoteIndexOfName | src/utils/harmony.ts:3 | the twelve names are distinct: looking up the k-th name gives k back |
| Harmony.NoteToMidi | src/utils/harmony.ts:10-13 | for a known name the MIDI number has the note's index as its pitch class and octave + 1 as its twelve-semitone block; an unknown name gives one below the octave's C |
| Harmony.NoteRoundTrip | src/utils/harmony.ts:10-23 | printing the MIDI number of a named note (octave ≥ −1) gives back the name followed by the octave |
| Harmony.MidiRoundTrip | src/utils/harmony.ts:10-23 | for every MIDI number ≥ 0, the printed name is one of the twelve and name plus printed octave map back to the same number |
| Harmony.NameLength | src/utils/harmony.ts:3 | a printed note's name is two characters long exactly when its second character is '#' |
| Harmony.MidiToNoteInjective | src/utils/harmony.ts:19-23 | two non-negative MIDI numbers with the same printed note are equal |
| Harmony.ScaleNotes | src/utils/harmony.ts:25-30 | a scale has seven pitch classes, each in 0..11 when the key is a known name |
| Harmony.ScaleMembership | src/utils/harmony.ts:5-8 | a pitch class belongs to the scale exactly when its distance above the key (mod 12) is one of the scale's intervals |
| Harmony.ScaleNotesDistinct | src/utils/harmony.ts:25-30 | the seven pitch classes of a scale on a known key are pairwise different |
| Harmony.EnsembleOrdered | src/utils/harmony.ts:32-154 | an ensemble carries the roles bass, tenor, alto, soprano in that order with strictly rising MIDI numbers |
| Harmony.GenerateTriad | src/utils/harmony.ts:32-62 | the triad voicing is an ordered ensemble at offsets 0, 4, 7, 12 above the root, each voice sounding its own frequency |
| Harmony.GenerateSatb | src/utils/harmony.ts:64-96 | the SATB voicing is an ordered ensemble at offsets −12, 0, 4, 19 |
| Harmony.GenerateCloseHarmony | src/utils/harmony.ts:98-125 | the close voicing is an ordered ensemble at offsets 0, 3, 5, 7 |
| Harmony.GenerateOpenHarmony | src/utils/harmony.ts:127-154 | the open voicing is an ordered ensemble at offsets −12, 4, 7, 16 |
| Harmony.GenerateHarmony | src/utils/harmony.ts:156-177 | every voicing string, including unknown ones, gives four voices in bass-to-soprano order with strictly rising MIDI numbers |
| Harmony.HarmonyFollowsTable | src/utils/harmony.ts:156-177 | voice k of the result carries role k, sits at the voicing table's k-th offset above `noteToMidi(root, octave)` (the triad for unknown voicings) and sounds `hz` of its MIDI number |
| Harmony.HarmonyIgnoresScale | src/utils/harmony.ts:32-177 | major and minor give identical voices: no voicing reads the scale notes it is passed |
| Harmony.HarmonyFrequenciesIncrease | src/utils/harmony.ts:15-177 | with an increasing frequency map, frequencies rise strictly from bass to soprano |
| Harmony.TriadOnG3 | src/utils/harmony.ts:156-177 | G3 with the triad gives MIDI 55, 59, 62, 67 in either scale |
| Harmony.QuantizeToScale | src/utils/harmony.ts:179-208 | the octave is passed through; the result names a pitch class in 0..11 whose MIDI number lies in the detected octave and which is a scale note at minimal cyclic distance below the detected note |
| Harmony.NearestUnique | src/utils/harmony.ts:192-198 | on a known key the scale note at minimal distance is unique, so the first-wins tie rule never matters |
| Harmony.QuantizeInScale | src/utils/harmony.ts:179-208 | idempotence: a note already in the scale is its own and only nearest scale note |
| Harmony.QuantizeCSharpInCMajor | src/utils/harmony.ts:193 | C# in C major quantises down to C, not up to D |
| Harmony.QuantizeBInCMinor | src/utils/harmony.ts:193 | B in C minor quantises to A# |
| Harmony.QuantizeCInCMajor | src/utils/harmony.ts:193-200 | C in C major quantises to C itself |
| Harmony.QuantizeCInDMajor | src/utils/harmony.ts:193-200 | C in D major wraps to B while the octave is kept, so C4 becomes B4 (MIDI 71) |
| TrackList.IsTrackAudible | src/components/TrackList.tsx:21-28 | with any track soloed, a track is audible exactly when it is soloed; with none soloed, exactly when it is not muted |
| TrackList.SoloedIsAudible | src/components/TrackList.tsx:23-28 | a soloed track is audible even when it is muted |
| TrackList.SoloOverridesMute | src/components/TrackList.tsx:23-28 | once anything is soloed, changing the muted set changes no track's audibility |
| TrackList.MuteOnlyMattersWithoutSolo | src/components/TrackList.tsx:23-61 | a silent track is never soloed, so its mute button is enabled; with nothing soloed it is silent only because it is muted |
| KeyboardShortcuts.Shortcut | src/hooks/useKeyboardShortcuts.ts:14-23 | the table has an entry exactly for r, space, s, c, m, e, z and y |
| KeyboardShortcuts.ToLower | src/hooks/useKeyboardShortcuts.ts:60 | lower-casing keeps the length, maps each ASCII capital 32 code points down and leaves every other character alone |
| KeyboardShortcuts.HandleKeyPress | src/hooks/useKeyboardShortcuts.ts:26-87 | a handler is invoked only if the application supplied it, and only together with `preventDefault` |
| KeyboardShortcuts.FormFieldsIgnored | src/hooks/useKeyboardShortcuts.ts:27-32 | a key typed into an input, text area or select invokes nothing and prevents nothing |
| KeyboardShortcuts.CommandShortcuts | src/hooks/useKeyboardShortcuts.ts:40-57 | Ctrl/Cmd without Shift plus z, y or e invokes undo, redo or export, with the default prevented, when that handler is present |
| KeyboardShortcuts.RedoOnlyOnCtrlY | src/hooks/useKeyboardShortcuts.ts:40-51 | redo runs exactly for Ctrl/Cmd+y without Shift with a redo handler; the Shift+z alternative is unreachable inside the no-Shift branch |
| KeyboardShortcuts.UndoOnlyOnCtrlZ | src/hooks/useKeyboardShortcuts.ts:40-86 | undo runs exactly for Ctrl/Cmd+z without Shift with an undo handler; the single key z has no case in the switch |
| KeyboardShortcuts.SingleKeys | src/hooks/useKeyboardShortcuts.ts:59-86 | an unmodified r, space, s, c, m or e, in either letter case, prevents the default and invokes its handler when present |
| KeyboardShortcuts.PlainUndoRedoKeysDoNothing | src/hooks/useKeyboardShortcuts.ts:59-86 | an unmodified z or y in either case prevents the default and invokes no handler |
| KeyboardShortcuts.OtherChordsDoNothing | src/hooks/useKeyboardShortcuts.ts:34-64 | any Shift chord, and any Ctrl/Cmd chord on a key other than z, y and e, invokes nothing and prevents nothing |
| Signal.Store | src/worklets/pitch-detector.js:33 | a typed-array store keeps the length, writes the cell at an in-range index and changes no other cell; an out-of-range write is dropped |
| Signal.RingIndexIsMod | src/worklets/pitch-detector.js:32-35 | after k ≥ 1 samples the write index is (start + k) mod the buffer size, even from an out-of-range start |
| Signal.RingIndexInRange | src/worklets/pitch-detector.js:32-35 | once a sample has been stored the write index lies inside the buffer |
| Signal.RingWriteContents | src/worklets/pitch-detector.js:32-35 | for a block no longer than the buffer, sample i lands at (start + i) mod n and every other cell keeps its old value |
| Signal.RingWriteLength | src/worklets/pitch-detector.js:32-35 | the fill loop never changes the buffer's length |
| Signal.DiffSum | src/worklets/pitch-detector.js:62-68 | the Yin difference at a lag, a sum of squares, is never negative |
| Signal.SumSquares | src/worklets/pitch-detector-optimized.js:68-72 | the energy of a frame is never negative |
| Signal.DiffSumOfSilence | src/worklets/pitch-detector.js:62-68 | a silent buffer has zero difference at every lag |
| Signal.SumSquaresOfSilence | src/worklets/pitch-detector-optimized.js:68-72 | a silent frame has zero energy |
| PitchDetector.Descend | src/worklets/pitch-detector.js:82-84 | the inner walk stops inside the buffer, every step it takes goes to a strictly smaller value, and it stops where the next value is not smaller (or at the end) |
| PitchDetector.Scan | src/worklets/pitch-detector.js:79-89 | the outer scan ends on a lag between its start and the last index |
| PitchDetector.Search | src/worklets/pitch-detector.js:79-93 | a lag that survives the null test lies in [2, length − 1) |
| PitchDetector.DescendStaysBelow | src/worklets/pitch-detector.js:81-84 | descending from a value below a bound ends on a value below that bound |
| PitchDetector.ScanReachesFirst | src/worklets/pitch-detector.js:79-89 | from any start up to the first below-threshold lag, the scan ends where the descent from that lag ends |
| PitchDetector.ScanWithoutCandidate | src/worklets/pitch-detector.js:79-89 | with no value below the threshold ahead, the scan runs out at the last index |
| PitchDetector.SearchFromFirst | src/worklets/pitch-detector.js:79-93 | with a first candidate lag, the search answers the end of the descent from it, and null exactly when that descent reaches the last index |
| PitchDetector.SearchWithoutCandidate | src/worklets/pitch-detector.js:79-93 | with no value below 0.15 in [2, length − 1) the search answers null |
| PitchDetector.SearchResult | src/worklets/pitch-detector.js:79-93 | a returned lag is inside [2, length − 1), below the threshold, not above its right neighbour, and reached from the first candidate by strictly decreasing steps |
| PitchDetector.FirstCandidate | src/worklets/pitch-detector.js:80-81 | when some lag is below the threshold, a lowest such lag exists |
| PitchDetector.RunningSumMonotone | src/worklets/pitch-detector.js:72-74 | over non-negative differences the running sum is non-negative and never decreases |
| PitchDetector.CandidateHasPositivePrefix | src/worklets/pitch-detector.js:73-76 | a normalised value below the threshold at lag k has a positive running sum before k |
| PitchDetector.NeighboursShape | src/worklets/pitch-detector.js:95-109 | at the lag of the search both neighbours are finite, the left one strictly larger and the right one no smaller, so the source's one-sided branches are dead and the three-point formula applies |
| PitchDetector.CmndNeighbours | src/worklets/pitch-detector.js:70-93 | the same neighbour shape for any non-negative difference values |
| PitchDetector.FiniteFrom | src/worklets/pitch-detector.js:73-76 | once the running sum is positive, every later normalised value is the finite d[tau] · tau / sum |
| PitchDetector.InterpolateNear | src/worklets/pitch-detector.js:105-108 | for such a dip the denominator is negative and the interpolated lag lies within half a sample of tau, so it is positive and the frequency is defined |
| PitchDetector.DetectedPitchRange | src/worklets/pitch-detector.js:55-121 | a detected pitch lies in [80, 2000] Hz and its confidence is 1 − yin[tau] at the lag of the search, hence in (0.85, 1] |
| PitchDetector.SilenceGivesNull | src/worklets/pitch-detector.js:70-93 | an all-zero buffer makes every normalised value NaN (0 · Infinity), so nothing is detected |
| PitchDetector.RunningSumOfZeros | src/worklets/pitch-detector.js:72-74 | all-zero differences keep the running sum at zero |
| PitchDetector.PitchDetectorProcessor.constructor | src/worklets/pitch-detector.js:2-23 | sample rate 44100, a zeroed 2048-sample buffer, write index 0, frame count 0, nothing posted |
| PitchDetector.PitchDetectorProcessor.OnMessage | src/worklets/pitch-detector.js:18-22 | a truthy sample rate replaces the current one; a missing or zero one leaves it alone; nothing else changes |
| PitchDetector.PitchDetectorProcessor.Process | src/worklets/pitch-detector.js:25-53 | without input nothing changes; with input the block is ring-written into the buffer, the frame count rises by one, and on every fourth frame the detection of the new buffer is posted when it is not null; the worklet is always kept alive |
| PitchDetector.PitchDetectorProcessor.DetectPitch | src/worklets/pitch-detector.js:55-121 | the result equals the Yin specification `Detect` of the buffer's contents and sample rate |
| PitchDetector.FillDifferences | src/worklets/pitch-detector.js:61-68 | every lag from 1 gets its difference sum, read from the buffer in physical order with indices inside the buffer; entry 0 is left alone |
| PitchDetector.NormaliseInPlace | src/worklets/pitch-detector.js:70-76 | the array becomes the cumulative mean normalised difference of the values it held, entry 0 being 1 |
| PitchDetector.AbsoluteThreshold | src/worklets/pitch-detector.js:78-89 | the lag equals the scan specification from lag 2, and the probability is 1 − yin[tau] whenever that lag is a real candidate |
| PitchDetectorOptimized.Scan | src/worklets/pitch-detector-optimized.js:81-107 | the search loop keeps the yinBuffer's length and selects either no lag (−1) or one between its start and the half buffer |
| PitchDetectorOptimized.InterpolatedLag | src/worklets/pitch-detector-optimized.js:111-126 | the lag moves off tau only when the right neighbour is inside the half buffer and the parabola's curvature is non-zero |
| PitchDetectorOptimized.ScanSelectsFirst | src/worklets/pitch-detector-optimized.js:88-107 | the selected lag is the first whose normalised difference is below 0.15 (the minVal test never rejects one); the values before it are not below, and −1 means no lag of the range is |
| PitchDetectorOptimized.ScanFrame | src/worklets/pitch-detector-optimized.js:88-107 | the search rewrites only the lags from its start up to the selected one; indices below the start and lags above the selection keep their old values |
| PitchDetectorOptimized.ScanKeepsUnitRange | src/worklets/pitch-detector-optimized.js:97-99 | with old values in [0, 1] every value the search writes is in [0, 1] |
| PitchDetectorOptimized.UnitRange | src/worklets/pitch-detector-optimized.js:98 | `sum / ((sum + prev) \|\| 1)` of non-negative values lies in [0, 1] |
| PitchDetectorOptimized.SilenceGivesNull | src/worklets/pitch-detector-optimized.js:67-75 | an all-zero buffer fails the RMS gate: the result is null and yinBuffer is left alone |
| PitchDetectorOptimized.OneSampleGivesNull | src/worklets/pitch-detector-optimized.js:27-32 | a one-sample buffer with its empty yinBuffer, as a buffer size of 1 allocates, gives no pitch and leaves the yinBuffer as it is |
| PitchDetectorOptimized.DetectedPitch | src/worklets/pitch-detector-optimized.js:66-135 | a detected pitch comes from the first lag below the threshold, lies in [50, 2000] Hz, has confidence 1 − cmnd at that lag, and that confidence is in (0.85, 1] when the old yinBuffer held values in [0, 1] |
| PitchDetectorOptimized.DetectFrame | src/worklets/pitch-detector-optimized.js:88-126 | after a detection, indices 0 and 1 and every lag above the selected one still hold their old values, so the interpolation's right neighbour is a value left from an earlier frame |
| PitchDetectorOptimized.NoteFromMidi | src/worklets/pitch-detector-optimized.js:141-150 | for a MIDI number ≥ 0 the name is one of the twelve and name and octave map back to the number; a negative number not divisible by 12 names "undefined" |
| PitchDetectorOptimized.OptimizedPitchDetectorProcessor.constructor | src/worklets/pitch-detector-optimized.js:2-34 | sample rate 44100, a zeroed 1024-sample buffer, a zeroed 512-entry yinBuffer, index and frame count 0, nothing posted |
| PitchDetectorOptimized.OptimizedPitchDetectorProcessor.OnMessage | src/worklets/pitch-detector-optimized.js:23-33 | a truthy sample rate replaces the rate; a truthy positive buffer size n, odd or even, reallocates both arrays zero-filled, at n samples and ⌊n/2⌋ yinBuffer entries, and leaves the write index where it was |
| PitchDetectorOptimized.OptimizedPitchDetectorProcessor.Process | src/worklets/pitch-detector-optimized.js:36-64 | without input nothing changes; with input the block is ring-written (writes at an index left out of range by a resize are dropped), the frame count rises, and on every second frame the buffer's detection is posted when not null and leaves its yinBuffer behind |
| PitchDetectorOptimized.OptimizedPitchDetectorProcessor.DetectPitch | src/worklets/pitch-detector-optimized.js:66-135 | the result and the yinBuffer left behind equal the specification `Detect` of the buffer, the old yinBuffer and the sample rate |
| PitchDetectorOptimized.SquareSum | src/worklets/pitch-detector-optimized.js:68-71 | the loop computes the sum of squares of the whole buffer |
| PitchDetectorOptimized.LagDifference | src/worklets/pitch-detector-optimized.js:89-94 | the inner loop computes the difference sum over the half buffer at lag t |
| PitchDetectorOptimized.SearchLags | src/worklets/pitch-detector-optimized.js:81-107 | the loop leaves the yinBuffer and the lag of the `Scan` specification from lag 2, with minVal the value at the selected lag, and keeps every value in [0, 1] |
| AudioNodes.Halted | src/hooks/useSimpleSynthesizer.ts:61-67 | `oscillator.stop(); oscillator.disconnect()` stops the tone and cuts its path, keeping waveform and frequency; the gain's own edge is cut only when the gain is disconnected too |
| AudioNodes.WithVolume | src/hooks/useSimpleSynthesizer.ts:116 | `{ ...prev, [voiceName]: volume }` sets that role's volume and keeps every other role's |
| AudioNodes.Get | src/hooks/useSimpleSynthesizer.ts:118 | `map.get(k)` finds a value exactly when k is a key, and the value found is stored under k |
| AudioNodes.Put | src/hooks/useSimpleSynthesizer.ts:88-110 | `map.set(k, v)` adds k to the keys, keeps the keys distinct, and grows the map exactly when k is new |
| AudioNodes.GetPut | src/hooks/useSimpleSynthesizer.ts:88-118 | after `map.set(k, v)` the key k gives v and every other key gives what it gave before |
| AudioNodes.Values | src/hooks/useSimpleSynthesizer.ts:55 | `forEach` visits the values in insertion order |
| AudioNodes.PutAll | src/hooks/useSimpleSynthesizer.ts:75-112 | a loop of `map.set` calls keeps the keys distinct; the keys become the old keys plus those of the pairs |
| AudioNodes.GetPutAll | src/hooks/useSimpleSynthesizer.ts:75-112 | after the loop a key gives the value of its last pair (a later set overwrites an earlier one), and a key no pair mentions keeps its old value |
| AudioNodes.LastWithIsLast | src/hooks/useSimpleSynthesizer.ts:75-112 | a pair with no later pair of the same key is the one whose value survives |
| AudioNodes.PutAllFresh | src/hooks/useSimpleSynthesizer.ts:75-112 | setting pairs with distinct new keys appends them in order |
| AudioNodes.PutAppends | src/hooks/useSimpleSynthesizer.ts:88-110 | setting a new key appends its pair at the end |
| AudioNodes.HarmonyKeys | src/hooks/useSimpleSynthesizer.ts:72-112 | pairs keyed bass, tenor, alto, soprano have distinct keys covering every role, so the cleared map ends up holding exactly them, in order |
| AudioNodes.KeysBound | src/hooks/useSimpleSynthesizer.ts:75-112 | a list of pairs has at most as many keys as pairs, exactly as many when its keys are distinct |
| AudioNodes.RepeatedKey | src/hooks/useSimpleSynthesizer.ts:75-112 | two pairs with the same key leave fewer keys than pairs |
| AudioNodes.OverwrittenEntry | src/hooks/useSynthesizer.ts:18-31 | rebuilding from pairs with a repeated key stores fewer entries than pairs: the earlier node under that key is dropped from the map |
| SimpleSynthesizerHook.Pairs | src/hooks/useSimpleSynthesizer.ts:75-112 | one rebuild's `set` calls: for each voice in harmony order, its name and the node built for it under the current volumes and settings |
| SimpleSynthesizerHook.Teardowns | src/hooks/useSimpleSynthesizer.ts:55-71 | the torn-down form of each stored node, in map order |
| SimpleSynthesizerHook.TeardownSilences | src/hooks/useSimpleSynthesizer.ts:55-112 | every node a rebuild makes is sounding, and its teardown is not |
| SimpleSynthesizerHook.TeardownIsSilent | src/hooks/useSimpleSynthesizer.ts:55-71 | whatever node is torn down, it no longer sounds |
| SimpleSynthesizerHook.OneNodePerName | src/hooks/useSimpleSynthesizer.ts:72-112 | after a rebuild the map has distinct keys, its keys are the voices' names, and a name gives the node built for the last voice with that name |
| SimpleSynthesizerHook.HarmonyNodes | src/hooks/useSimpleSynthesizer.ts:72-112 | for a generated harmony the map holds exactly four entries, one per role, bass first, each the node built for that voice |
| SimpleSynthesizerHook.SimpleModeTone | src/hooks/useSimpleSynthesizer.ts:89-111 | in simple mode bass is a triangle and tenor a sawtooth (and only they), the oscillator runs at the voice's frequency, the gain is volume · 0.2, and the tone is started and routed to the output gain |
| SimpleSynthesizerHook.FormantModeVoice | src/hooks/useSimpleSynthesizer.ts:78-88 | in formant mode the node is a connected formant synthesiser with ten live nodes, playing the current vowel's filters for the voice's role, its harmonics, and an output gain of volume · 0.3 |
| SimpleSynthesizerHook.SimpleSynthesizer.constructor | src/hooks/useSimpleSynthesizer.ts:23-41 | volumes default to 0.5 each, formant mode is on unless `false` is passed, an absent or empty vowel becomes 'ah', and no context, output gain or node exists yet |
| SimpleSynthesizerHook.SimpleSynthesizer.SetAudioNodes | src/hooks/useSimpleSynthesizer.ts:44-47 | records whether a context and an output gain are present and changes nothing else |
| SimpleSynthesizerHook.SimpleSynthesizer.SynthesizeVoices | src/hooks/useSimpleSynthesizer.ts:49-113 | without a context or an output gain nothing happens; otherwise every stored node is torn down in map order, and the map becomes the result of setting one new node per voice into an empty map |
| SimpleSynthesizerHook.SimpleSynthesizer.TearDown | src/hooks/useSimpleSynthesizer.ts:55-72 | every stored node is torn down in map order and the map is cleared |
| SimpleSynthesizerHook.SimpleSynthesizer.SetVoiceVolume | src/hooks/useSimpleSynthesizer.ts:115-122 | the role's volume is set; a live simple-mode node of that role gets gain volume · 0.2 when there is a context; formant nodes are not retuned and nothing is rebuilt |
| SimpleSynthesizerHook.SimpleSynthesizer.StopAllVoices | src/hooks/useSimpleSynthesizer.ts:124-143 | every stored node is torn down in map order and the map is cleared, whether or not a context exists |
| SimpleSynthesizerHook.SimpleSynthesizer.SetVowel | src/hooks/useSimpleSynthesizer.ts:145-147 | only the vowel setting changes; the sounding voices keep their vowel until the next rebuild |
| SimpleSynthesizerHook.SimpleSynthesizer.ToggleFormants | src/hooks/useSimpleSynthesizer.ts:149-151 | only the formant-mode flag flips |
| SimpleSynthesizerHook.VolumeChangeIsLocal | src/hooks/useSimpleSynthesizer.ts:115-122 | a volume change leaves every other role's entry as it was |
| FormantSynthesis.VowelFormants | src/utils/formantSynthesis.ts:10-17 | the table has an entry exactly for a, e, i, o, u and ah, each with three bandwidths |
| FormantSynthesis.FormantsFor | src/utils/formantSynthesis.ts:63 | the formants used (the vowel's, or ah's for a vowel not in the table) are positive, with three positive bandwidths |
| FormantSynthesis.VoiceModifier | src/utils/formantSynthesis.ts:20-25 | every voice type scales the formants by positive factors |
| FormantSynthesis.VoicedShape | src/utils/formantSynthesis.ts:55-110 | `synthesizeVowel` first retires everything that was live, then leaves exactly six started, connected oscillators, three connected filters and one started looping noise source through a 1000 Hz highpass, noise gain 0.02 and output gain volume · 0.3, whatever was playing before |
| FormantSynthesis.StopRetiresAll | src/utils/formantSynthesis.ts:158-178 | after `stop` nothing is live, and every oscillator, filter and noise source that was live is in the retired log, stopped and disconnected |
| FormantSynthesis.StopTwice | src/utils/formantSynthesis.ts:158-178 | a second `stop` stops nothing more; it retires only the fresh, unconnected noise gain the first one created |
| FormantSynthesis.DisconnectSilences | src/utils/formantSynthesis.ts:50-53 | after `disconnect` the output is off and nothing is live, everything having been retired |
| FormantSynthesis.PartialSeries | src/utils/formantSynthesis.ts:67-84 | harmonic h sounds at h times the fundamental with amplitude 0.25 / h, so the amplitudes fall strictly with the harmonic number |
| FormantSynthesis.FilterSettings | src/utils/formantSynthesis.ts:87-103 | each band-pass filter sits at the vowel's formant scaled by the voice type, with a positive Q whose product with the bandwidth is the centre frequency |
| FormantSynthesis.UnknownVowelIsAh | src/utils/formantSynthesis.ts:63 | a vowel missing from the table gets the filters of 'ah' |
| FormantSynthesis.BassAh | src/utils/formantSynthesis.ts:16-24 | 'ah' on a bass voice puts the formants at 544, 1071 and 2151 Hz |
| FormantSynthesis.VoicedLeaksTaps | src/utils/formantSynthesis.ts:99-178 | each vowel adds three master-gain-to-filter edges and `stop` removes none of them |
| FormantSynthesis.FormantSynthesizer.constructor | src/utils/formantSynthesis.ts:36-44 | a new synthesiser has no live nodes, an unconnected output at gain 0.3 and an empty retired log |
| FormantSynthesis.FormantSynthesizer.Connect | src/utils/formantSynthesis.ts:46-48 | only the output's connection changes |
| FormantSynthesis.FormantSynthesizer.Disconnect | src/utils/formantSynthesis.ts:50-53 | the output is disconnected and then everything is stopped |
| FormantSynthesis.FormantSynthesizer.SynthesizeVowel | src/utils/formantSynthesis.ts:55-110 | the new state is the `Voiced` graph of the old one, whose shape VoicedShape states |
| FormantSynthesis.FormantSynthesizer.AddHarmonics | src/utils/formantSynthesis.ts:67-84 | the loop leaves exactly the six partials of the fundamental and changes nothing else |
| FormantSynthesis.FormantSynthesizer.AddFormantFilters | src/utils/formantSynthesis.ts:86-103 | the loop leaves exactly the three filters of the formants and modifier, adding three master-gain edges |
| FormantSynthesis.FormantSynthesizer.AddBreathiness | src/utils/formantSynthesis.ts:112-136 | a looping noise source is started through the highpass, and the noise gain is set to 0.02 and connected |
| FormantSynthesis.FormantSynthesizer.Stop | src/utils/formantSynthesis.ts:158-178 | the new state is the `Stopped` graph of the old one: lists emptied, noise gain replaced, everything taken down retired in order |
| FormantSynthesizerHook.Pairs | src/hooks/useFormantSynthesizer.ts:53-72 | one rebuild's `set` calls: for each voice in harmony order, its name and a synthesiser built for it under the current volumes and vowel |
| FormantSynthesizerHook.Teardowns | src/hooks/useFormantSynthesizer.ts:46-49 | the stopped-and-disconnected form of each stored synthesiser, in map order |
| FormantSynthesizerHook.NodeForVoice | src/hooks/useFormantSynthesizer.ts:53-72 | each synthesiser is connected, plays the voice's harmonics and the current vowel's filters for its role with output gain volume · 0.3, has ten live nodes, and is stored with the voice's role as its type |
| FormantSynthesizerHook.FormantsAlways | src/hooks/useFormantSynthesizer.ts:42-73 | the `useFormants` flag is never consulted: toggling it builds identical nodes |
| FormantSynthesizerHook.TeardownSilences | src/hooks/useFormantSynthesizer.ts:46-49 | a torn-down synthesiser has no live node and a disconnected output |
| FormantSynthesizerHook.OnePerRole | src/hooks/useFormantSynthesizer.ts:50-72 | after a rebuild from a generated harmony the map holds exactly one synthesiser per role, bass first |
| FormantSynthesizerHook.VolumeChangeRetunes | src/hooks/useFormantSynthesizer.ts:85-92 | a volume change re-synthesises the live voice at 440 Hz whatever its pitch was, with the new volume, retiring what it played |
| FormantSynthesizerHook.FormantSynthesizer.constructor | src/hooks/useFormantSynthesizer.ts:22-40 | the context and output gain are the hook's arguments; volumes default to 0.25 each, formant mode is on unless `false` is passed, an absent or empty vowel becomes 'ah'; the map is empty |
| FormantSynthesizerHook.FormantSynthesizer.SynthesizeVoices | src/hooks/useFormantSynthesizer.ts:42-73 | without a context or output gain nothing happens; otherwise every stored synthesiser is torn down in map order and the map becomes one new synthesiser per voice name, set in harmony order |
| FormantSynthesizerHook.FormantSynthesizer.TearDown | src/hooks/useFormantSynthesizer.ts:46-50 | every stored synthesiser is stopped and disconnected in map order and the map is cleared |
| FormantSynthesizerHook.FormantSynthesizer.SetVoiceVolume | src/hooks/useFormantSynthesizer.ts:75-94 | the role's volume is set; with a context, a live synthesiser of that role is re-synthesised in place at 440 Hz with the current vowel and the new volume; otherwise the map is unchanged |
| FormantSynthesizerHook.FormantSynthesizer.StopAllVoices | src/hooks/useFormantSynthesizer.ts:96-102 | every stored synthesiser is torn down in map order and the map is cleared |
| FormantSynthesizerHook.FormantSynthesizer.SetVowel | src/hooks/useFormantSynthesizer.ts:104-106 | only the vowel setting changes |
| FormantSynthesizerHook.FormantSynthesizer.ToggleFormants | src/hooks/useFormantSynthesizer.ts:108-110 | only the formant-mode flag flips |
| SynthesizerHook.Pairs | src/hooks/useSynthesizer.ts:18-31 | one rebuild's `set` calls: for each voice in harmony order, its name and its oscillator |
| SynthesizerHook.Tones | src/hooks/useSynthesizer.ts:18-31 | every oscillator a rebuild starts, one per voice, in harmony order |
| SynthesizerHook.Teardowns | src/hooks/useSynthesizer.ts:11-14 | the stopped-and-disconnected form of each stored oscillator, in map order |
| SynthesizerHook.ToneForVoice | src/hooks/useSynthesizer.ts:19-29 | each voice's oscillator is a started sine at the voice's frequency with gain 0.1, and its teardown stops and disconnects it |
| SynthesizerHook.LastVoiceWins | src/hooks/useSynthesizer.ts:30 | the oscillator stored under a name is the one started for the last voice with that name |
| SynthesizerHook.DuplicateNameOrphans | src/hooks/useSynthesizer.ts:18-31 | two voices with one name start more oscillators than the map keeps, so one keeps sounding and no later teardown reaches it |
| SynthesizerHook.HarmonyTones | src/hooks/useSynthesizer.ts:18-31 | with a generated harmony every started oscillator is in the map, one per role, bass first |
| SynthesizerHook.Synthesizer.constructor | src/hooks/useSynthesizer.ts:4-5 | the context and output gain are the hook's arguments and the map starts empty |
| SynthesizerHook.Synthesizer.SynthesizeVoices | src/hooks/useSynthesizer.ts:7-32 | without a context or output gain nothing happens; otherwise every stored oscillator is stopped and disconnected in map order, one oscillator per voice is started, and the map holds the last one per name |
| SynthesizerHook.Synthesizer.TearDown | src/hooks/useSynthesizer.ts:11-15 | every stored oscillator is stopped and disconnected in map order and the map is cleared |
| SynthesizerHook.Synthesizer.StopAllVoices | src/hooks/useSynthesizer.ts:34-40 | every stored oscillator is stopped and disconnected in map order and the map is cleared |
| DebugSynthesizerHook.Pairs | src/hooks/useDebugSynthesizer.ts:72-92 | one rebuild's `set` calls: for each voice in harmony order, its name and its tone |
| DebugSynthesizerHook.Teardowns | src/hooks/useDebugSynthesizer.ts:60-68 | the torn-down form of each stored tone, in map order |
| DebugSynthesizerHook.ToneForVoice | src/hooks/useDebugSynthesizer.ts:21-26 | with the fixed volume 0.5 every voice is a started sine at its frequency with gain 0.15, routed both to the output gain and straight to the destination; its teardown stops it and cuts both edges |
| DebugSynthesizerHook.TestToneLasts | src/hooks/useDebugSynthesizer.ts:35-46 | the test tone is 440 Hz at gain 0.3 and its stop is scheduled exactly half a second after its start |
| DebugSynthesizerHook.HarmonyTones | src/hooks/useDebugSynthesizer.ts:69-92 | with a generated harmony the map holds one tone per role, bass first |
| DebugSynthesizerHook.DebugSynthesizer.constructor | src/hooks/useDebugSynthesizer.ts:16-26 | the context and output gain are the hook's arguments; no voice and no test tone exist yet |
| DebugSynthesizerHook.DebugSynthesizer.TestTone | src/hooks/useDebugSynthesizer.ts:28-49 | with a context and output gain one scheduled test tone is added at the current time; without them nothing happens; the voices are untouched |
| DebugSynthesizerHook.DebugSynthesizer.SynthesizeVoices | src/hooks/useDebugSynthesizer.ts:51-95 | without a context or output gain nothing happens; otherwise every stored tone is torn down in map order and the map becomes one tone per voice name, set in harmony order |
| DebugSynthesizerHook.DebugSynthesizer.TearDown | src/hooks/useDebugSynthesizer.ts:60-69 | every stored tone is torn down in map order and the map is always cleared |
| DebugSynthesizerHook.DebugSynthesizer.StopAllVoices | src/hooks/useDebugSynthesizer.ts:97-108 | every stored tone is torn down in map order and the map is cleared |
| Looper.SecondsPerBar | src/hooks/useLooper.ts:26-27 | a 4/4 bar at a positive tempo lasts a positive time |
| Looper.ScheduleOne | src/hooks/useLooper.ts:32-56 | `scheduleTrack`: an existing source of the track's id is stopped and disconnected, and the id is set to a new looping source starting at `when` |
| Looper.ScheduleAll | src/hooks/useLooper.ts:66-68 | scheduling a list of tracks in turn keeps one source per id |
| Looper.BoundaryValue | src/hooks/useLooper.ts:73-95 | the k-th loop boundary of a run lies k loop durations after its start |
| Looper.AdvanceByOneLoop | src/hooks/useLooper.ts:64-84 | a tick moves the next loop time by exactly one loop duration when the boundary is within 0.1 s, and not at all otherwise; the playing flag is untouched |
| Looper.LoopDurationValue | src/hooks/useLooper.ts:26-28 | the loop duration times the tempo is 240 times the number of bars |
| Looper.BarWithinPass | src/hooks/useLooper.ts:79-80 | inside a loop pass the computed bar lies between 1 and the number of bars |
| Looper.BarZeroInLead | src/hooks/useLooper.ts:79-84 | during the 0.1 s lead before the first pass, at tempos up to 2400 bpm, the computed bar is 0, and the guard (which bounds it only from above) lets it through |
| Looper.StaleTickRestarts | src/hooks/useLooper.ts:64-84 | a tick holding the stopped state (loop time 0, bar 1) fires at every time from −0.1 s on, and its bar candidate always exceeds the number of bars: each such tick pushes the current loop time one loop further and shows bar 1 |
| Looper.BoundaryShowsBarOne | src/hooks/useLooper.ts:64-84 | at 120 bpm and four bars, a tick 0.05 s before the boundary while bar 4 shows moves the boundary 8 s on and leaves bar 1 showing |
| Looper.ScheduledSource | src/hooks/useLooper.ts:32-68 | after scheduling, an id of the list gives a fresh looping source from the last track with that id, starting at `when`; every other id keeps its source |
| Looper.ScheduledAllLoop | src/hooks/useLooper.ts:43-55 | after scheduling at `when`, every track has a looping source that ends each pass at the loop duration and starts at `when` |
| Looper.StalePlaybackRestartsEveryTick | src/hooks/useLooper.ts:87-109 | scenario, as written: at 120 bpm and four bars, one track started at time 0 ends the start with the next boundary at 16.1 s and its source restarted at time 0; a tick 25 ms later moves the boundary to 24.1 s and restarts it at 0 again; two sources have been stopped |
| Looper.CurrentPlaybackKeepsStart | src/hooks/useLooper.ts:87-109 | scenario, as intended: the same start leaves the track playing from 0.1 s with the boundary at 8.1 s and bar 0 shown during the lead; a tick 25 ms later changes nothing and stops no source |
| Looper.LastIndex | src/hooks/useLooper.ts:55 | when some track has the id, the index found is the last track with it |
| Looper.ReplacedSourceStopped | src/hooks/useLooper.ts:35-40 | the old source of every rescheduled id ends up stopped and disconnected in the stopped list |
| Looper.ScheduleAllSnoc | src/hooks/useLooper.ts:66-68 | scheduling one more track is scheduling the list and then that track |
| Looper.HaltAll | src/hooks/useLooper.ts:119-122 | every source of the map, in map order, comes out stopped and disconnected |
| Looper.Looper.constructor | src/hooks/useLooper.ts:10-23 | the looper starts not playing, at bar 1 and loop time 0, with no timer and no sources |
| Looper.Looper.ScheduleTrack | src/hooks/useLooper.ts:32-56 | without a context or output gain nothing happens; otherwise the sources and the stopped log are those of `ScheduleOne`; the looper state is untouched |
| Looper.Looper.ScheduleTracks | src/hooks/useLooper.ts:66-68 | scheduling every track in order gives the sources and stopped log of `ScheduleAll` |
| Looper.Looper.Tick | src/hooks/useLooper.ts:58-85 | as intended: without a context nothing happens; otherwise the boundary test, the restart time and the bar candidate read the current state, which becomes `Advance` of the old one; when the boundary is within the lookahead every track is rescheduled at that boundary; loop boundaries stay one loop duration apart |
| Looper.Looper.TickAsWritten | src/hooks/useLooper.ts:58-85 | as written: the tick is the one the timer was made with, so the boundary test, the restart time and the bar candidate read the state it holds (`tickView`) while the updates apply to the current state, which becomes `AdvanceSeen(tickView, old state)`; when that held boundary is within the lookahead every track is rescheduled at it |
| Looper.Looper.StartPlayback | src/hooks/useLooper.ts:87-109 | as intended: without a context or with no tracks nothing happens; otherwise the run starts 0.1 s ahead at bar 1 with the next boundary one loop later, and the first tick runs at once on that state; the sources and the stopped log are exactly those of scheduling every track at the start and, if that first tick fires, again at the boundary; every track loops, and with a positive loop duration every track starts at the start time; the timer is armed |
| Looper.Looper.StartPlaybackAsWritten | src/hooks/useLooper.ts:87-109 | as written: as `StartPlayback`, except that the timer's tick holds the looper state from before the start, and the first tick runs at once on it: the state is `AdvanceSeen(old state, first state)`, and when the held boundary is within the lookahead every track is rescheduled at the held loop time, after its just-started source is stopped; every track loops |
| Looper.Looper.StopPlayback | src/hooks/useLooper.ts:111-131 | the timer is cleared, every source is stopped and disconnected in map order, the map is emptied, and the state is reset to not playing, bar 1, loop time 0 |
| Metronome.ClickRun | src/hooks/useMetronome.ts:48-58 | a tick that schedules n clicks gives exactly n of them |
| Metronome.BeatCycles | src/hooks/useMetronome.ts:52 | from the downbeat, the k-th click carries beat k mod beatsPerBar + 1 |
| Metronome.BeatInBar | src/hooks/useMetronome.ts:52 | a beat number in 1..beatsPerBar stays in that range however many clicks follow |
| Metronome.ClickRunElements | src/hooks/useMetronome.ts:48-58 | click k of a run is at k beats after its start, with the beat number k clicks on |
| Metronome.TimeAfterValue | src/hooks/useMetronome.ts:56-57 | k beats after t is t + k times the seconds per beat |
| Metronome.ClickSpacing | src/hooks/useMetronome.ts:22-58 | the clicks of a run are strictly increasing, exactly one beat apart, each 0.05 s long, and from the downbeat exactly every beatsPerBar-th click is the 1000 Hz one |
| Metronome.DecreasesStep | src/hooks/useMetronome.ts:48-58 | the number of beats left before the lookahead limit is positive and drops with each click, so the loop ends |
| Metronome.ScheduleRun | src/hooks/useMetronome.ts:48-58 | the loop schedules clicks one beat apart while the time is before the limit: every click is before the limit, the time ends at or past it, and the beat after them stays in the bar |
| Metronome.Metronome.constructor | src/hooks/useMetronome.ts:11-20 | not playing, beat 1, 120 bpm, 4 beats per bar, next note time 0 and no timer |
| Metronome.Metronome.Scheduler | src/hooks/useMetronome.ts:44-59 | without a context nothing happens; otherwise the clicks added are the run from the next note time and beat, all before now + 0.1, the next note time ends at or past now + 0.1, and the shown beat follows the last click |
| Metronome.Metronome.StartMetronome | src/hooks/useMetronome.ts:61-76 | without a context nothing changes; otherwise the run takes the current tempo, the clicks added are exactly `ClickRun` from the current time and beat 1 (so the first is a downbeat at once), the next note time is where that run ends, at or past now + 0.1, every new click is due before now + 0.1, the beat is the one after the run, the shown beat follows it, the metronome is playing and the timer is armed |
| Metronome.Metronome.StopMetronome | src/hooks/useMetronome.ts:78-84 | the timer is cleared and the state shows beat 1, not playing; nothing else changes |
| Metronome.Metronome.SetBpm | src/hooks/useMetronome.ts:86-88 | only the tempo field changes; a running run keeps its tempo |
| Metronome.Metronome.ToggleMetronome | src/hooks/useMetronome.ts:90-96 | playing: the outcome of `StopMetronome` (timer cleared, beat 1 shown, not playing, clicks, next time, beat and run tempo unchanged); stopped: the outcome of `StartMetronome`, the full click run from the current time included; stopped without a context: nothing changes |
| UndoRedo.CanUndo | src/hooks/useUndoRedo.ts:19 | undo is possible exactly when the past is not empty |
| UndoRedo.CanRedo | src/hooks/useUndoRedo.ts:20 | redo is possible exactly when the future is not empty |
| UndoRedo.Recorded | src/hooks/useUndoRedo.ts:31-45 | an ordinary update makes the value present and empties the future; the old present joins the end of the past, and the oldest entry is dropped when the past would exceed the limit; the size bound is kept |
| UndoRedo.Updated | src/hooks/useUndoRedo.ts:22-47 | with the undo/redo flag raised only the present is replaced; otherwise the future is discarded; either way the value is present and the size bound is kept |
| UndoRedo.Undone | src/hooks/useUndoRedo.ts:49-66 | with an empty past nothing changes; otherwise the past shortens by one and the future grows by one |
| UndoRedo.Redone | src/hooks/useUndoRedo.ts:68-85 | with an empty future nothing changes; otherwise the past grows by one and the future shortens by one |
| UndoRedo.Cleared | src/hooks/useUndoRedo.ts:95-101 | the present is kept and the history length becomes 0 |
| UndoRedo.ResetTo | src/hooks/useUndoRedo.ts:87-93 | the history length becomes 0 and the present is the given value, or the hook's initial value when none is given |
| UndoRedo.UndoThenRedo | src/hooks/useUndoRedo.ts:49-85 | when undo is possible, undo then redo restores the history exactly |
| UndoRedo.RedoThenUndo | src/hooks/useUndoRedo.ts:49-85 | when redo is possible, redo then undo restores the history exactly |
| UndoRedo.UndoRedoWalkTimeline | src/hooks/useUndoRedo.ts:49-112 | undo and redo keep the whole timeline (past, present, future) and the history length, and move the present one place back or forward |
| UndoRedo.BoundedPreserved | src/hooks/useUndoRedo.ts:22-101 | every operation keeps past and future together within the size limit |
| UndoRedo.UpdateDropsRedo | src/hooks/useUndoRedo.ts:43 | an ordinary update after an undo leaves nothing to redo |
| UndoRedo.UndoRedoHistory.constructor | src/hooks/useUndoRedo.ts:9-17 | an empty history at the initial value, flag lowered |
| UndoRedo.UndoRedoHistory.SetState | src/hooks/useUndoRedo.ts:22-47 | the history becomes `Updated` under the current flag, and the size bound is kept |
| UndoRedo.UndoRedoHistory.Undo | src/hooks/useUndoRedo.ts:49-66 | the history becomes `Undone`; the flag is raised exactly when there was something to undo |
| UndoRedo.UndoRedoHistory.Redo | src/hooks/useUndoRedo.ts:68-85 | the history becomes `Redone`; the flag is raised exactly when there was something to redo |
| UndoRedo.UndoRedoHistory.FlagTimerFires | src/hooks/useUndoRedo.ts:58 | the zero-delay timer lowers the flag and leaves the history alone |
| UndoRedo.UndoRedoHistory.Reset | src/hooks/useUndoRedo.ts:87-93 | the history becomes `ResetTo` of the given value |
| UndoRedo.UndoRedoHistory.ClearHistory | src/hooks/useUndoRedo.ts:95-101 | the history becomes `Cleared` |
| Recorder.RecordedTrack | src/hooks/useRecorder.ts:28-33 | the new track holds the decoded buffer and the timestamp and is named `Track <n + 1>` after the track count n the recording captured |
| Recorder.RecordedNamesDiffer | src/hooks/useRecorder.ts:31 | recordings that captured different track counts get different names |
| Recorder.Recorder.constructor | src/hooks/useRecorder.ts:4-8 | not recording, no tracks, no recorder and no chunks |
| Recorder.Recorder.StartRecording | src/hooks/useRecorder.ts:10-41 | without a stream nothing changes; otherwise the chunks are reset, a fresh recorder runs, recording is on, and the handler captures the current track count; the tracks are untouched |
| Recorder.Recorder.DataAvailable | src/hooks/useRecorder.ts:16-20 | a non-empty chunk is appended and an empty one dropped; the tracks, the recording flag and the recorder are unchanged |
| Recorder.Recorder.StopRecording | src/hooks/useRecorder.ts:43-48 | with a recorder and recording on, the recorder is stopped and recording turns off; otherwise nothing changes; the tracks, the recorder and the chunks are unchanged either way |
| Recorder.Recorder.RecordingStopped | src/hooks/useRecorder.ts:22-37 | with a context and a decoded buffer exactly one `RecordedTrack` is appended; otherwise the tracks are unchanged; the recording flag, the recorder and the chunks are unchanged either way |
| Recorder.Recorder.ClearTracks | src/hooks/useRecorder.ts:50-52 | the track list is emptied; the recording flag, the recorder and the chunks are unchanged |
| RecorderWithUndo.WithoutTrack | src/hooks/useRecorderWithUndo.ts:75 | a track is kept exactly when it was in the list and has another id; the list never grows |
| RecorderWithUndo.WithoutTrackSplits | src/hooks/useRecorderWithUndo.ts:75 | the filter keeps order: filtering a concatenation filters each part |
| RecorderWithUndo.WithoutAbsentTrack | src/hooks/useRecorderWithUndo.ts:74-76 | deleting an id that no track has leaves the list unchanged |
| RecorderWithUndo.DeleteAppended | src/hooks/useRecorderWithUndo.ts:51-76 | deleting the id of a freshly appended track, unique in the list, gives back the list from before the append |
| RecorderWithUndo.RecordingUndoable | src/hooks/useRecorderWithUndo.ts:51-89 | a recording appended as an ordinary update and then undone leaves the list as it was, and redo brings the track back |
| RecorderWithUndo.RecorderWithUndo.constructor | src/hooks/useRecorderWithUndo.ts:5-19 | not recording, an empty track history with a limit of 50, no pending track |
| RecorderWithUndo.RecorderWithUndo.StartRecording | src/hooks/useRecorderWithUndo.ts:21-60 | without a stream nothing changes; otherwise the chunks are reset, a fresh recorder runs, recording is on and the handler captures the current track count; the pending track and the history are untouched |
| RecorderWithUndo.RecorderWithUndo.DataAvailable | src/hooks/useRecorderWithUndo.ts:27-31 | a non-empty chunk is appended and an empty one dropped; the recording flag, the recorder, the pending track and the history are unchanged |
| RecorderWithUndo.RecorderWithUndo.StopRecording | src/hooks/useRecorderWithUndo.ts:62-67 | with a recorder and recording on, the recorder is stopped and recording turns off; otherwise nothing changes; the recorder, the chunks, the pending track and the history are unchanged either way |
| RecorderWithUndo.RecorderWithUndo.RecordingStopped | src/hooks/useRecorderWithUndo.ts:33-56 | with a context and a decoded buffer the new track becomes the pending one and is appended to the present list as one history update; otherwise the history and pending track are unchanged; the recording flag, the recorder, the chunks and the undo/redo flag are unchanged either way |
| RecorderWithUndo.RecorderWithUndo.ClearTracks | src/hooks/useRecorderWithUndo.ts:69-72 | afterwards there are no tracks, no past and no future |
| RecorderWithUndo.RecorderWithUndo.DeleteTrack | src/hooks/useRecorderWithUndo.ts:74-76 | the present list becomes `WithoutTrack` of the old one, as one history update |
| RecorderWithUndo.RecorderWithUndo.Undo | src/hooks/useRecorderWithUndo.ts:78-85 | the history is undone and its undo/redo flag raised exactly when there was a past; the pending track is forgotten exactly when it is the last track of the list as it was before the undo; the recording flag, the recorder and the chunks are unchanged |
| RecorderWithUndo.RecorderWithUndo.Redo | src/hooks/useRecorderWithUndo.ts:87-89 | the history is redone and its undo/redo flag raised exactly when there was a future; the recorder state is untouched |
| RecorderWithUndo.RecorderWithUndo.CanUndo | src/hooks/useRecorderWithUndo.ts:12 | undo is possible exactly when the track history has a past |
| RecorderWithUndo.RecorderWithUndo.CanRedo | src/hooks/useRecorderWithUndo.ts:13 | redo is possible exactly when the track history has a future |
| Midi.BitOrAdds | src/hooks/useMIDI.ts:115 | OR-ing a number below 2^p into a multiple of 2^p adds it |
| Midi.ChannelNibble | src/hooks/useMIDI.ts:115-120 | for channels 1 to 16 the status byte is the status plus channel − 1: the high nibble is the message kind and the low nibble the channel |
| Midi.Channel17AliasesChannel1 | src/hooks/useMIDI.ts:115 | channel 17 spills into the status and sends the same byte 90H as channel 1 |
| Midi.Decode | src/hooks/useMIDI.ts:59-75 | a note comes out exactly for a message of at least three bytes whose status is 144..159 and whose velocity is positive; it carries the key number and 0 cents |
| Midi.DecodedNoteAgrees | src/hooks/useMIDI.ts:64-69 | the decoded name and octave print as the harmony engine's `midiToNote` prints the key, and `noteToMidi` gives the key back |
| Midi.NoteOnRoundTrip | src/hooks/useMIDI.ts:59-115 | a Note On the hook sends on channels 1 to 16 with a positive velocity is three bytes and decodes to its key |
| Midi.NoteOffIgnored | src/hooks/useMIDI.ts:59-120 | a Note Off the hook sends is three bytes and never decodes to a note |
| Midi.ZeroVelocityIgnored | src/hooks/useMIDI.ts:63 | a Note On with velocity 0 is ignored |
| Midi.HarmonyMessages | src/hooks/useMIDI.ts:127-135 | message i of a harmony is note i on channel first + i + 1, as many messages as notes |
| Midi.HarmonyChannels | src/hooks/useMIDI.ts:127-135 | a four-voice harmony goes out as Note Ons with status bytes 90H to 93H, voice i on channel i + 1 |
| Midi.MidiHook.constructor | src/hooks/useMIDI.ts:13-24 | not connected, no ports, no selection, no callback, nothing sent |
| Midi.MidiHook.AccessResolved | src/hooks/useMIDI.ts:28-53 | granted access lists the ports and connects; a failure marks the hook not connected and keeps the old access; the selection, the listeners, the callback, the sent and delivered logs and the queued Note Offs are untouched |
| Midi.MidiHook.HandleMidiMessage | src/hooks/useMIDI.ts:59-75 | a decoded note goes to the registered callback, exactly once; anything else delivers nothing; the state, access, ports, listeners, callback, sent log and queued Note Offs are unchanged |
| Midi.MidiHook.OnNoteReceived | src/hooks/useMIDI.ts:138-140 | the new callback replaces the old one; the state, access, ports, listeners, the sent and delivered logs and the queued Note Offs are unchanged |
| Midi.MidiHook.SetMidiInput | src/hooks/useMIDI.ts:78-95 | the old input stops listening; a known id selects and listens to that input; an unknown id changes nothing more; a null or empty id, or no access, clears the selection; the output, access, callback, the sent and delivered logs and the queued Note Offs are unchanged |
| Midi.MidiHook.SetMidiOutput | src/hooks/useMIDI.ts:98-109 | a known id selects that output; an unknown id changes nothing; a null or empty id, or no access, clears the selection; the input, listeners, access, callback, the sent and delivered logs and the queued Note Offs are unchanged |
| Midi.MidiHook.SendMidiNote | src/hooks/useMIDI.ts:112-124 | with an output selected, the Note On is sent to it and its Note Off queued; without one nothing happens; the state, ports, listeners, access, callback and delivered log are unchanged |
| Midi.MidiHook.NoteOffTimerFires | src/hooks/useMIDI.ts:118-122 | the oldest queued Note Off goes to whichever output is selected when its timer fires, or is dropped when none is; the state, access, ports, listeners, callback and delivered log are unchanged |
| Midi.MidiHook.SendHarmonyMidi | src/hooks/useMIDI.ts:127-135 | with an output selected, note i is sent at velocity 100 on channel i + 1 and its Note Off queued; without one nothing happens; the state, access, ports, listeners, callback and delivered log are unchanged |
| AudioExport.Le32 | src/utils/audioExport.ts:15 | a 32-bit little-endian field is four bytes |
| AudioExport.Le16 | src/utils/audioExport.ts:19 | a 16-bit little-endian field is two bytes |
| AudioExport.Ascii | src/utils/audioExport.ts:8-12 | `writeString` writes one byte per character, each the character's code |
| AudioExport.Le32RoundTrip | src/utils/audioExport.ts:15 | a 32-bit field reads back as its value modulo 2^32 |
| AudioExport.Le16RoundTrip | src/utils/audioExport.ts:38 | a 16-bit field reads back as its value modulo 2^16, and a value in the int16 range reads back unchanged as a signed field |
| AudioExport.Clamp | src/utils/audioExport.ts:37 | the sample is clamped to [−1, 1], and a sample already in range is unchanged |
| AudioExport.Truncate | src/utils/audioExport.ts:38 | `setInt16` stores its value truncated toward zero |
| AudioExport.Pcm | src/utils/audioExport.ts:37-38 | a sample becomes a value in [−32767, 32767]: full scale at or beyond ±1 and 0 for silence |
| AudioExport.ChannelBytes | src/utils/audioExport.ts:36-40 | the samples of k channels of one frame take 2k bytes |
| AudioExport.SampleBytes | src/utils/audioExport.ts:35-41 | n interleaved frames take 2 · n · channels bytes |
| AudioExport.RiffChunk | src/utils/audioExport.ts:14-16 | the RIFF header is 12 bytes |
| AudioExport.FmtChunk | src/utils/audioExport.ts:17-24 | the 'fmt ' chunk is 24 bytes |
| AudioExport.FmtBytes | src/utils/audioExport.ts:17-24 | the 'fmt ' tag and its seven fields in their widths take 24 bytes |
| AudioExport.DataChunkHeader | src/utils/audioExport.ts:25-26 | the 'data' tag and size take 8 bytes |
| AudioExport.Header | src/utils/audioExport.ts:14-26 | the header is 44 bytes |
| AudioExport.WavSize | src/utils/audioExport.ts:3-4 | the file is 44 bytes of header and then two bytes per sample of every channel |
| AudioExport.WavTags | src/utils/audioExport.ts:14-25 | 'RIFF', 'WAVE', 'fmt ' and 'data' sit at offsets 0, 8, 12 and 36 |
| AudioExport.RiffFields | src/utils/audioExport.ts:15 | the RIFF size field reads back as 36 + the data length, modulo 2^32 |
| AudioExport.FmtFields | src/utils/audioExport.ts:18-24 | the 'fmt ' fields read back as chunk size 16, format 1 (PCM), the channel count, the sample rate and the byte rate (both modulo 2^32), the block align and 16 bits per sample |
| AudioExport.FmtLayout | src/utils/audioExport.ts:18-24 | each of the seven 'fmt ' fields reads back at its offset as its value modulo its width |
| AudioExport.DataFields | src/utils/audioExport.ts:26 | the data size field reads back as the data length modulo 2^32 |
| AudioExport.WavFields | src/utils/audioExport.ts:15-26 | every integer field of the whole file reads back at its offset: the RIFF size, the 'fmt ' fields and the data size |
| AudioExport.SampleAt | src/utils/audioExport.ts:34-41 | channel c of frame i sits at offset 2 · (i · channels + c) of the interleaved data |
| AudioExport.SampleReadsBack | src/utils/audioExport.ts:34-41 | every stored sample reads back, at offset 44 + 2 · (i · channels + c), as its clamped, scaled and truncated value |
| AudioExport.SetBytes | src/utils/audioExport.ts:8-12 | the bytes are written at the offset and everything before it is kept |
| AudioExport.WriteHeader | src/utils/audioExport.ts:14-26 | the first 44 bytes are the header |
| AudioExport.WriteRiff | src/utils/audioExport.ts:14-16 | the first 12 bytes are the RIFF header |
| AudioExport.WriteFmt | src/utils/audioExport.ts:17-24 | bytes 12 to 35 are the 'fmt ' chunk and the RIFF header before it is kept |
| AudioExport.WriteDataHeader | src/utils/audioExport.ts:25-26 | bytes 36 to 43 are the 'data' header and what precedes it is kept |
| AudioExport.WriteFrame | src/utils/audioExport.ts:36-40 | the frame's samples, channel by channel, follow the bytes already written, and the offset moves on by two per channel |
| AudioExport.WriteSamples | src/utils/audioExport.ts:34-41 | after the header come all frames, interleaved, to the end of the buffer |
| AudioExport.ExportToWav | src/utils/audioExport.ts:1-44 | the bytes written are exactly the header followed by the interleaved samples |
| AudioExport.MaxLength | src/utils/audioExport.ts:55 | the maximum length is at least every track's and is some track's |
| AudioExport.MaxChannels | src/utils/audioExport.ts:56 | the maximum channel count is at least every track's and is some track's |
| AudioExport.MixShape | src/utils/audioExport.ts:46-63 | an empty list is rejected with "No tracks to mix"; otherwise the render buffer has the longest track's length, the largest channel count and the requested sample rate |
| App.AutoStopIsOneLoop | src/App.tsx:124-128 | the auto-stop delay is exactly one loop of the looper, in milliseconds |
| App.BassOnQuantisedNote | src/App.tsx:75-88 | the bass of the harmony sounds the quantised pitch class, which lies in the key's scale: in the detected octave, or one octave lower for satb and open |
| App.HarmonyDetermined | src/App.tsx:75-88 | on a named key a detected note determines its harmony: any two nearest scale notes give the same voices |
| App.QuantisedHarmony | src/App.tsx:76-88 | the harmony is the one generated on a nearest scale note of the detected note, in the detected octave |
| App.App.constructor | src/App.tsx:26-68 | not recording or playing, bar 1 of 4 at 120 bpm, key C major with triads, no pitch and no harmony; the synthesiser, recorder and looper start empty on the given context, stream and output gain |
| App.App.SetSettings | src/App.tsx:179 | only the settings change: the harmony, loop state, pending auto-stops, current pitch, latency and last pitch time are unchanged |
| App.App.HandlePitchData | src/App.tsx:72-99 | as intended: the pitch is always stored; a confident pitch (a note and confidence above 0.8) sets the harmony to the quantised one, synthesises exactly that harmony and measures the latency since the previous confident pitch; any other pitch changes nothing else |
| App.App.HandlePitchDataAsWritten | src/App.tsx:72-111 | as written: the pitch is always stored; a confident pitch sets the harmony quantised and voiced under the initial C / major / triad settings, whatever the current settings are, and measures the latency; no oscillator is started, stopped or stored |
| App.PitchHandlerIgnoresSettings | src/App.tsx:72-111 | as written: after the settings change to D major with satb, a confident C4 gives MIDI 60, 64, 67, 72 (the triad on C4) and starts no oscillator |
| App.PitchHandlerFollowsSettings | src/App.tsx:72-99 | as intended: the same steps give MIDI 59, 71, 75, 90 (satb on B4, the nearest D major note) and start four oscillators |
| App.App.HandleRecord | src/App.tsx:113-133 | while recording, the recorder is stopped and the flag cleared; otherwise, when there are tracks, nothing plays and there is an audio context, overdub playback starts through the intended `Looper.Looper.StartPlayback` (the first tick's advance of a run 0.1 s ahead, the scheduler armed and, with an output gain, every track looping), and in every other case the looper is unchanged; the recorder starts, the flag is set and a one-loop auto-stop is armed; the tracks are untouched; the current pitch, latency and last pitch time are unchanged |
| App.App.AutoStop | src/App.tsx:125-128 | as intended: the expiring auto-stop stops a running recorder and clears the flag; the current pitch, latency and last pitch time are unchanged |
| App.App.AutoStopAsWritten | src/App.tsx:125-128 | as written: the expiring auto-stop clears only the flag; the recorder is not touched; the current pitch, latency and last pitch time are unchanged |
| App.App.HandlePlay | src/App.tsx:135-144 | with no tracks nothing happens; otherwise the flag says playing, showing the bar the looper showed before the start; with an audio context the looper starts through the intended `Looper.Looper.StartPlayback`: its state is the first tick's advance of a run starting 0.1 s ahead with the boundary one loop later, the scheduler is armed and, with an output gain, every track has a looping source at the loop duration; without a context the looper is unchanged; the current pitch, latency and last pitch time are unchanged |
| App.App.HandleStop | src/App.tsx:146-149 | all sources are halted, the looper is stopped and the flag says stopped at bar 1; the current pitch, latency and last pitch time are unchanged |
| App.AutoStopLeavesRecorderRunning | src/App.tsx:113-133 | pressing record and letting the auto-stop expire, as written, leaves the recorder recording while the flag says it is not |
| App.AutoStopStopsRecorder | src/App.tsx:113-133 | the same steps, as intended, stop the recorder and clear the flag together |

## Left out

- Web Audio, MediaRecorder, Web MIDI and the DOM are not modelled as APIs. Audio nodes are values with started, stopped and connected flags. The recorder's chunks are their sizes. `decodeAudioData` is a parameter that yields a buffer or fails. MIDI ports are their ids, and a sent message is recorded with its port. No sound, waveform or parameter ramp (`setValueAtTime`, `exponentialRampToValueAtTime`, `setTargetAtTime`) is modelled beyond the value it sets.
- Timers are explicit methods that the caller invokes when the delay has passed: the looper and metronome `setTimeout` loops, the 100 ms MIDI Note Off, the auto-stop of a recording and the zero-delay undo/redo flag reset. Their delays are not checked against any clock.
- Clocks are parameters: `AudioContext.currentTime`, `performance.now()` and `Date.now()`.
- Floating point is exact `real` arithmetic. Float32 rounding of the typed arrays and of `AudioBuffer` samples is not modelled. `midiToFrequency` (2^x) is the uninterpreted, increasing parameter `hz`.
- `frequencyToNote` (log2 and rounding) is not modelled, so the posted pitch messages carry frequency and confidence only, not the note and the timestamp. For the optimised worklet the integer tail from the rounded MIDI number on is modelled by `PitchDetectorOptimized.NoteFromMidi`.
- The RMS gate of the optimised worklet compares the mean square with 0.0001, which is the same test as `sqrt(mean square) < 0.01`.
- Randomness is not modelled: the white-noise buffer of `addBreathiness` is filled by `Math.random`, and only its shape (a looping source through a 1000 Hz highpass at gain 0.02) is kept. `modulate` (a random-rate sine vibrato, src/utils/formantSynthesis.ts:138-156) is not part of this model.
- React rendering and closure capture are not reproduced. The model applies each handler to the current state, with four exceptions that stand for captured values:
  - the metronome run keeps the tempo it was started with (`runBpm`);
  - a recording names its track after the track count at its start (`capturedCount`);
  - the auto-stop of a recording is modelled both as written and as intended (see Findings);
  - the pitch handler the worklet's port calls is modelled both as written and as intended (see Findings);
  - the looper's running tick is modelled both as written and as intended (see Findings).
- Looper.Looper.Tick reads the current looper state for its boundary test, restart time and bar candidate. The source's running tick is the `scheduler` of the render before playback started (src/hooks/useLooper.ts:104-108), which reads the state held then; that behaviour is `Looper.Looper.TickAsWritten`, listed under Findings.
- Looper.Looper.StartPlayback runs its first tick on the current state, so the tracks start once at the start time. The source's first tick holds the state from before the start; that behaviour is `Looper.Looper.StartPlaybackAsWritten`, listed under Findings.
- App.App.HandlePlay starts the looper through the intended `Looper.Looper.StartPlayback`, not through `Looper.Looper.StartPlaybackAsWritten`, so it does not show the every-tick restart listed under Findings.
- App.App.HandleRecord starts overdub playback through the intended `Looper.Looper.StartPlayback` for the same reason.
- The render once audio has started is not modelled, and as written it fails. src/App.tsx:54 takes `voiceVolumes` and `setVoiceVolume` from `useSynthesizer`, which returns only `synthesizeVoices` and `stopAllVoices` (src/hooks/useSynthesizer.ts:42). So once `audioState.isStarted` holds, reading `voiceVolumes.soprano` at src/App.tsx:189 throws a TypeError and the application's tree is unmounted. The `App` model describes the handlers as coded, as they would behave once those volumes are supplied; the voice volume controls themselves are not part of this model.
- The metronome's per-click `setMetronomeState` calls are collapsed into one; with React's functional updates they end in the same state.
- Microphone and worklet set-up are not part of this model: `useAudioContext.ts`, `handleStartAudio` (src/App.tsx:101-111), `initializeAudio`, the level meter and the analyser. The one consequence of that wiring that the model keeps is which pitch handler the port calls, in `App.App.HandlePitchDataAsWritten`. The audio context, output gain and stream are fixed booleans given at construction of each hook, except for `setAudioNodes` of the simple synthesiser. The time `handleStartAudio` stores in `latencyRef` is the constructor parameter `startTime` of `App.App`.
- MIDI device enumeration and `onstatechange` (src/hooks/useMIDI.ts:27-56) are one call, `AccessResolved`, with the port ids it found.
- `mixTracks` rendering through an `OfflineAudioContext` and `downloadAudio` are not modelled; `AudioExport.MixShape` keeps the empty-list rejection and the size of the render buffer.
- Track audio buffers are opaque numbers in `TrackList.Track`.
- Keyboard event targets are an element kind, standing for the `instanceof` tests. Listener registration (src/hooks/useKeyboardShortcuts.ts:89-96) is not modelled.
- `KeyboardShortcuts.ToLower` folds only the ASCII letters; `toLowerCase` on other characters is not modelled.
- Lookups such as `key in SHORTCUTS` would also see inherited `Object.prototype` members such as "constructor"; the model's table has only the listed keys.
- `AudioExport.ExportToWav`: a NaN sample (which `Math.max`/`Math.min` pass through and `setInt16` stores as 0) cannot be written as a `real`. A non-integer sample rate (which `setUint32` truncates) is not modelled either: the sample rate is a `nat`.
- `AudioExport.WavFields` requires fewer than 32768 channels, so that the block align (channels · 2) fits its 16-bit field. `AudioExport.FmtLayout` states the general case modulo 2^16.
- `Harmony.QuantizeToScale`, `App.QuantisedHarmony` and `App.App.SetSettings` require the key to be one of the twelve note names, which is all the key selector offers (src/components/HarmonyControls.tsx:9). With an unknown key the source's root pitch class is −1, and its name `noteNames[-1]` is undefined.
- `Looper.Looper.constructor` requires a positive tempo; the application always passes 120.
- `Metronome.Metronome.SetBpm` requires a positive tempo, which the tempo control guarantees (src/components/MetronomeControls.tsx:19). In the source a tempo of 0 gives an infinite beat, and a negative tempo makes the scheduling loop run forever.
- `Metronome.Metronome`: beats per bar is fixed at its initial 4, as in the source, which never changes it.
- `Metronome.BeatCycles` states the cycle from the downbeat; the range of every later beat is stated separately in `Metronome.BeatInBar`.
- `Midi.MidiHook.SendMidiNote` requires a channel of at least 1: the source's callers pass 1 or index + 1, and `0x90 | -1` would be a negative status.
- `UndoRedo.UndoRedoHistory.constructor` takes the size limit as a `nat`; a negative `maxHistorySize` is not modelled.
- `RecorderWithUndo.RecorderWithUndo.RecordingStopped`: the caught decode failure only logs, and the log is not modelled; it changes nothing, as in the model.
- `PitchDetectorOptimized.OptimizedPitchDetectorProcessor.OnMessage` requires a truthy new buffer size to be positive. Only a negative size makes the source throw a `RangeError`. It is thrown by `new Float32Array(this.bufferSize)`, after the sample rate and `bufferSize` have been updated and before either array is reallocated. Any positive size is modelled, odd ones included: `this.bufferSize / 2` is truncated to a length, so the yinBuffer has ⌊n/2⌋ entries, which is the halfBuffer that detection reads. A fractional buffer size is not modelled: the size is an integer.
- Loops that sit inside one source function are separate methods in the model, each proved against the function that specifies it: `Harmony.QuantizeToScale`'s scan, `PitchDetector.FillDifferences`, `PitchDetector.NormaliseInPlace`, `PitchDetector.AbsoluteThreshold`, `PitchDetectorOptimized.SquareSum`, `PitchDetectorOptimized.LagDifference`, `PitchDetectorOptimized.SearchLags`, `Metronome.ScheduleRun`, `AudioExport.WriteFrame` and `AudioExport.WriteSamples`.
- The alternative synthesiser hooks keep the value of each voice's graph rather than a reference to a live object. `FormantSynthesis.FormantSynthesizer` itself is modelled as a class.
- `localStorage.ts`, the remaining components (displays, controls, the latency tester) and the type and styling files are not part of this model.

## Findings

| source | as written | input that shows it | evidently intended | confidence | as-written member | corrected member |
|---|---|---|---|---|---|---|
| src/App.tsx:124-128 | The auto-stop timeout calls the `stopRecording` of the render in which `handleRecord` ran. In that render `isRecording` was still false, and `stopRecording` acts only when its own `isRecording` is true (src/hooks/useRecorder.ts:43-48). So the timeout only clears the recording flag, and the recorder keeps running. | Once the missing voice volumes are supplied, so that the screen renders after audio has started (see Left out): with a microphone and a context, press record and let the one-loop auto-stop expire. The recorder is still recording. Only `loopState.isRecording` is cleared, and the recorder controls do not show it: they are given the recorder's own `isRecording` (src/App.tsx:225-227). So the screen keeps showing a recording, and the take ends only when record is pressed again. | When the auto-stop expires, the recorder is stopped and the flag cleared together. | not executed | App.App.AutoStopAsWritten, App.AutoStopLeavesRecorderRunning | App.App.AutoStop, App.AutoStopStopsRecorder |
| src/App.tsx:72-111 | `initializeAudio` installs the port handler once, with the `onPitchData` it is given (src/hooks/useAudioContext.ts:62-64). That is the `handlePitchData` of the render in which Start Audio was pressed, and the button is disabled from then on (src/components/AudioControls.tsx:19), so the handler is never replaced. In that render `audioNodes.context` was still null, so the captured `synthesizeVoices` returns at once (src/hooks/useSynthesizer.ts:8). Its settings are the initial C / major / triad, because the harmony controls are rendered only once audio has started (src/App.tsx:170-180). | Once the missing voice volumes are supplied, so that the screen renders after audio has started (see Left out): start audio, change the settings to D major with the satb voicing, and sing a confident C4. The display shows the triad on C4 (MIDI 60, 64, 67, 72), and no oscillator sounds. | The current settings give satb on B4 (MIDI 59, 71, 75, 90), and its four oscillators sound. | not executed | App.App.HandlePitchDataAsWritten, App.PitchHandlerIgnoresSettings | App.App.HandlePitchData, App.PitchHandlerFollowsSettings |
| src/hooks/useLooper.ts:104-108 | `startPlayback`'s timer loop calls the `scheduler` of the render in which playback was started, and that `scheduler` holds the looper state of that render, which is the stopped state with loop time 0 (src/hooks/useLooper.ts:58-85). Its boundary test `currentTime + 0.1 >= 0` therefore always holds: every tick restarts every track at time 0 through `scheduleTrack`, stopping the source it replaces, and pushes `nextLoopTime` one loop further. Its bar candidate always exceeds the number of bars, so the bar stays at 1. | The looper hook with a context and an output gain, at 120 bpm and four bars (an 8 s loop), started at time 0 with one track (in the application, playing needs the missing voice volumes supplied; see Left out). After the start the state is playing, bar 1, next boundary 16.1 s; the source started for 0.1 s has been stopped and the track restarted at time 0. A tick 25 ms later restarts it at 0 again and moves the boundary to 24.1 s. The loop audibly restarts every 25 ms. | The tick reads the current state: the track starts once at 0.1 s, the first boundary is at 8.1 s, and the track is restarted only at boundaries one loop apart. | not executed | Looper.Looper.TickAsWritten, Looper.Looper.StartPlaybackAsWritten, Looper.StaleTickRestarts, Looper.StalePlaybackRestartsEveryTick | Looper.Looper.Tick, Looper.Looper.StartPlayback, Looper.CurrentPlaybackKeepsStart |
