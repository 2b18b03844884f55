# Voice lab pitch tracker, modelled in Dafny

This project models the logic of a browser voice lab used in speech therapy. The lab listens to the microphone and shows three things:

- the fundamental frequency of the voice, as a note, an octave and a deviation in cents;
- session statistics (lowest, highest and mean frequency);
- a timeline of the recent readings.

It also has a stopwatch for phonation times.

The model covers these parts:

- **The per-frame pitch estimator**, which is the body of `updatePitch`:
  - a silence gate on the frame's energy;
  - an unnormalised autocorrelation built by two nested loops;
  - a cursor that walks down the slope after lag 0;
  - a first-maximum peak search;
  - the 80–1000 Hz voice band check.
- **The integer half of `noteFromPitch`**: from a MIDI number to a note name and an octave.
- **The session aggregator**: a class whose `Update` and `Reset` mirror `updateVocalMetrics` and the metric part of `resetMetrics`.
- **The stopwatch**: a class with toggle, 10 ms tick, reset, record and clear, plus `formatTime`.
- **The page state**: a class holding the reading, the history, the listening flags, the metrics and the stopwatch. Its `UpdatePitch` runs one animation frame by calling the estimator's loops. Its other handlers are start, stop and reset.
- **The display arithmetic of the visual components**:
  - the history window, bar colours, bar and grid positions of the timeline;
  - the clamp and indicator position of the cents meter;
  - the key range, labels and sharp/active flags of the keyboard.
- **How the components line up** in the visualiser.

The loops of `updatePitch` are methods, each proved to compute a function. The lemmas state the source's promises about those functions. The two stateful parts of the page are classes:

- the metrics aggregator and the stopwatch (`Metrics.VocalMetrics`, `Timing.Stopwatch`);
- the page itself (`VoiceLabPage.VoiceLab`).

Each class keeps a `Valid()` invariant. The page's invariant says:

- the audio graph is live exactly while the page listens;
- every history entry is the silent `{0, -1}` or a note of the voice band at most 50 cents off;
- every recorded frequency lies in (80, 1000) Hz.

JavaScript semantics are modelled where they decide the result:

- `%` truncates toward zero, so a negative MIDI number that is not a multiple of 12 reads `undefined` from the name table (`Js.Rem12`, `NoteMapper.NoteName`);
- `Array.prototype.slice` with a negative start (`Js.SliceFrom`);
- `toString` and `padStart` on numbers (`Js.NatToString`, `Js.PadStart`).

Two behaviours of the code are worth spelling out:

- **History is unbounded.** The page appends every reading to an unbounded array. Only the timeline bounds it, by taking `slice(-maxHistoryItems)` (100 by default) when it draws. `PitchHistory.WindowIsRingBuffer` proves that this window is exactly a first-in first-out buffer of capacity `maxHistoryItems` fed with the same readings; `PitchVisualizer.DefaultWindowIsLastHundred` shows the default window the visualiser gets.
- **Negative MIDI numbers.** The note name is `noteStrings[noteIndex % 12]` with JavaScript's `%`. A negative MIDI number that is not a multiple of 12 therefore gives an `undefined` note name, which is `None` here; a negative multiple of 12 gives "C". Under the `Calibrated` assumption on the logarithm step, a voiced frequency has a MIDI number between 39 and 83, so this case never reaches the page (`VoiceLabPage.ReadingIsPlausible`).

## Model

| member | source | states |
|---|---|---|
| Js.Rem12 | src/pages/VoiceLabPage.tsx:31 | JavaScript `n % 12`: the remainder has the sign of `n`, lies in (-12, 12), equals Euclidean `%` for `n >= 0`, and differs from `n` by a multiple of 12 |
| Js.SliceFrom | src/components/voice-lab/pitch-history.tsx:56 | `slice(start)`: a negative start keeps the last `min(-start, len)` elements, a non-negative one drops `start`; the result is always a suffix |
| Js.NatToStringRoundTrip | src/pages/VoiceLabPage.tsx:221 | the decimal string of a number reads back as that number |
| Js.NatToString | src/pages/VoiceLabPage.tsx:221 | `n.toString()`: decimal digits, one digit exactly below 10, at most two exactly below 100, no leading zero |
| Js.IntToString | src/components/voice-lab/piano.tsx:19 | `toString()` of an integer: digits reading back as the number, or `-` followed by digits reading back as its magnitude |
| Js.PadStart | src/pages/VoiceLabPage.tsx:221 | `padStart(width, fill)`: the result has length `max(len, width)`, ends with the original string and is filled in front |
| Js.PaddedNumberValue | src/pages/VoiceLabPage.tsx:221 | zero-padding a number's digits keeps the value it reads back as |
| NoteMapper.NoteName | src/pages/VoiceLabPage.tsx:31-34 | the name is `noteStrings[n % 12]` for `n >= 0`; for negative `n` it exists only at multiples of 12 (then "C"), else the lookup is `undefined` |
| NoteMapper.Octave | src/pages/VoiceLabPage.tsx:32 | the octave `o` of MIDI `n` satisfies `12(o+1) <= n < 12(o+2)` |
| NoteMapper.NoteFromMidi | src/pages/VoiceLabPage.tsx:31-34 | the reading keeps the full MIDI number as noteIndex and the cents as given, names the note and brackets it in its octave |
| NoteMapper.NoteFromMidiInjective | src/pages/VoiceLabPage.tsx:31-34 | octave and position in the octave give back the MIDI number |
| NoteMapper.NoteFromMidiLandmarks | src/pages/VoiceLabPage.tsx:15-34 | 69 is A4, 60 is C4, and -1 has no name |
| PitchEstimator.SumSq | src/pages/VoiceLabPage.tsx:113-117 | the energy Σx² of the frame, summed from the front; `SumOfSquares` is proved to compute it |
| PitchEstimator.Silent | src/pages/VoiceLabPage.tsx:113-120 | the gate `sqrt(Σx²/N) < 0.01`, stated as `Σx² < 0.0001·N` without the root; `SilentFrameIsUnvoiced` and `Estimate` state its effect |
| PitchEstimator.LagSum | src/pages/VoiceLabPage.tsx:126-128 | the inner loop's sum `Σ_{j<m} x[j]·x[j+lag]`; `LagZeroIsEnergy` and `Autocorrelate` state its meaning |
| PitchEstimator.SumOfSquares | src/pages/VoiceLabPage.tsx:113-118 | the accumulating loop computes Σx² |
| PitchEstimator.Autocorrelation | src/pages/VoiceLabPage.tsx:125-130 | one entry per lag, `r[i] = Σ_{j<N-i} x[j]·x[j+i]` |
| PitchEstimator.Autocorrelate | src/pages/VoiceLabPage.tsx:125-130 | the nested loops over a zero-filled array compute exactly that autocorrelation |
| PitchEstimator.LagZeroIsEnergy | src/pages/VoiceLabPage.tsx:113-130 | at lag 0 the correlation sum is the frame's energy |
| PitchEstimator.AutocorrelationAtZero | src/pages/VoiceLabPage.tsx:113-130 | `r[0] = Σx²`, and a frame that passes the gate has `r[0] >= 0.0001·N > 0` |
| PitchEstimator.DescentEnd | src/pages/VoiceLabPage.tsx:131-132 | the walk never moves backwards |
| PitchEstimator.Descend | src/pages/VoiceLabPage.tsx:131-132 | the `while` loop, with the read past the end made explicit, stops at the least index where r stops falling |
| PitchEstimator.DescentEndIsLeastStop | src/pages/VoiceLabPage.tsx:131-132 | r falls strictly on [0, d], and at d either the array ends or `r[d] <= r[d+1]` |
| PitchEstimator.DescentEndUnique | src/pages/VoiceLabPage.tsx:131-132 | no other index fits that description |
| PitchEstimator.PeakFrom | src/pages/VoiceLabPage.tsx:133-140 | the reference peak scan from index i with a running maximum; `PeakIsFirstMaximum` states what it finds |
| PitchEstimator.Peak | src/pages/VoiceLabPage.tsx:133-140 | the scan seeded with maxval -1 and maxpos -1 from the end of the descent; `PeakIsFirstMaximum` and `PeakSearch` state its result |
| PitchEstimator.PeakSearch | src/pages/VoiceLabPage.tsx:133-140 | the loop seeded with -1/-1 returns the first maximum of r from d on |
| PitchEstimator.PeakIsFirstMaximum | src/pages/VoiceLabPage.tsx:133-140 | maxpos is -1 exactly when no lag from d on exceeds -1; otherwise it holds the maximum of r[d..], and every earlier lag is strictly below it |
| PitchEstimator.BandFrequency | src/pages/VoiceLabPage.tsx:141-144 | a voiced frequency lies strictly between 80 and 1000 and times T0 gives the sample rate; any in-band `sr/T0` is voiced |
| PitchEstimator.BandOnLag | src/pages/VoiceLabPage.tsx:141-144 | for a positive rate the band test is `T0 > 0 && sr/1000 < T0 < sr/80`; a non-positive T0 is never voiced |
| PitchEstimator.Estimate | src/pages/VoiceLabPage.tsx:113-153 | a silent frame gives no frequency; a voiced one is inside the band |
| PitchEstimator.VoicedExactlyInBand | src/pages/VoiceLabPage.tsx:120-144 | a frame is voiced exactly when it passes the gate and the peak lag is within the band |
| PitchEstimator.EstimateFrame | src/pages/VoiceLabPage.tsx:113-144 | the gate, the three loops and the band check together compute the frame's estimate |
| PitchEstimator.EstimateIsPeakFrequency | src/pages/VoiceLabPage.tsx:125-147 | a voiced estimate is `sr/T0` for the first peak past the descent, with `0 < T0 < N` |
| Metrics.Sum | src/pages/VoiceLabPage.tsx:97-98 | `reduce((a, b) => a + b, 0)` over the list; `SumAtLeast`, `SumAtMost` and `SessionExample` state its bounds and values |
| Metrics.Mean | src/pages/VoiceLabPage.tsx:97-99 | `sum / length` of a non-empty list; `MeanBetweenMinAndMax` bounds it by the extremes |
| Metrics.SeqMin | src/pages/VoiceLabPage.tsx:85-90 | the reference minimum of the recorded list: a member of it, below every element |
| Metrics.SeqMax | src/pages/VoiceLabPage.tsx:91-96 | the reference maximum: a member, above every element |
| Metrics.NewMin | src/pages/VoiceLabPage.tsx:85-90 | the minimum record moves only on a strictly lower frequency; a tie keeps the earlier record |
| Metrics.NewMax | src/pages/VoiceLabPage.tsx:91-96 | the maximum record moves only on a strictly higher frequency |
| Metrics.SumAtLeast | src/pages/VoiceLabPage.tsx:98 | a lower bound on every element bounds the sum by count × bound |
| Metrics.SumAtMost | src/pages/VoiceLabPage.tsx:98 | an upper bound on every element bounds the sum by count × bound |
| Metrics.MeanBetweenMinAndMax | src/pages/VoiceLabPage.tsx:97-99 | the mean `sum/len` lies between the least and the greatest recorded value |
| Metrics.RecordKeepsConsistent | src/pages/VoiceLabPage.tsx:83-101 | recording a positive frequency by the strict min/max rules and the new mean keeps the records equal to the list's extremes and the average its mean |
| Metrics.VocalMetrics.constructor | src/pages/VoiceLabPage.tsx:44-47 | no records, average 0, empty list |
| Metrics.VocalMetrics.Update | src/pages/VoiceLabPage.tsx:83-101 | a non-positive frequency changes nothing; otherwise min/max move by the strict rules, the frequency is appended and the average is the mean of the list; the invariant (records are the list's extremes, average its mean) is kept |
| Metrics.VocalMetrics.Reset | src/pages/VoiceLabPage.tsx:69-73 | back to no records, average 0 and an empty list |
| Metrics.VocalMetrics.RangeOrdered | src/pages/VoiceLabPage.tsx:83-101 | once anything is recorded, `min.hz <= avg <= max.hz` |
| Metrics.SessionExample | src/pages/VoiceLabPage.tsx:83-101 | recording 100, 50 and 200 Hz gives min 50, max 200 and mean 350/3, and a 0 Hz reading is ignored |
| Timing.Pad2 | src/pages/VoiceLabPage.tsx:221 | `toString().padStart(2, "0")` gives at least two digits reading back as the number, exactly two below 100 |
| Timing.FormatTime | src/pages/VoiceLabPage.tsx:217-222 | the result is at least 8 characters with `:` and `.` in the MM:SS.cc positions |
| Timing.FieldArithmetic | src/pages/VoiceLabPage.tsx:218-220 | seconds are below 60, hundredths below 100, and the three fields recombine to `ms` rounded down to 10 ms |
| Timing.FieldsOfFormat | src/pages/VoiceLabPage.tsx:221 | the minutes, seconds and hundredths positions of the output hold the three padded numbers |
| Timing.FormatTimeRoundTrip | src/pages/VoiceLabPage.tsx:217-222 | the three fields are digits (minutes at least two), read back as `ms/60000`, `(ms%60000)/1000 < 60` and `(ms%1000)/10 < 100`, and recombine to `ms` rounded down to 10 ms |
| Timing.Pad2Digits | src/pages/VoiceLabPage.tsx:221 | the two characters Pad2 produces for a number below 100 |
| Timing.FormatTimeExample | src/pages/VoiceLabPage.tsx:217-222 | 61230 ms is "01:01.23" |
| Timing.FormatTimeZero | src/pages/VoiceLabPage.tsx:217-222 | 0 ms is "00:00.00" |
| Timing.Stopwatch.constructor | src/pages/VoiceLabPage.tsx:58-60 | 0 ms, stopped, nothing recorded |
| Timing.Stopwatch.Toggle | src/pages/VoiceLabPage.tsx:323 | the play/pause button flips the running flag only |
| Timing.Stopwatch.Tick | src/pages/VoiceLabPage.tsx:206-215 | a running stopwatch advances by 10 ms; time stays a multiple of 10 |
| Timing.Stopwatch.Reset | src/pages/VoiceLabPage.tsx:327-330 | stopped at 0 ms, with the recorded list kept |
| Timing.Stopwatch.RecordTime | src/pages/VoiceLabPage.tsx:224-228 | the formatted current time is appended to the end of the list |
| Timing.Stopwatch.ClearRecordedTimes | src/pages/VoiceLabPage.tsx:350 | the list is emptied, the time and running flag are untouched |
| Timing.Stopwatch.RecordedTimeIsExact | src/pages/VoiceLabPage.tsx:209-222 | since time moves in 10 ms steps, the recorded string determines it exactly |
| PitchHistory.VisibleHistory | src/components/voice-lab/pitch-history.tsx:56 | the drawn rows are the last `min(len, k)` entries for `k > 0`, the whole history for `k = 0`, always a suffix |
| PitchHistory.VisibleIsLastEntries | src/components/voice-lab/pitch-history.tsx:56 | row i is entry `len - rows + i`, with `rows = min(len, k)` |
| PitchHistory.RingPush | src/components/voice-lab/pitch-history.tsx:56 | the reference FIFO of capacity k: append, and drop the oldest once full |
| PitchHistory.WindowIsRingBuffer | src/components/voice-lab/pitch-history.tsx:56 | appending to the unbounded history and windowing equals pushing onto the FIFO window |
| PitchHistory.WindowOfThree | src/components/voice-lab/pitch-history.tsx:56 | with capacity 3, five entries leave the last three in order |
| PitchHistory.IndicatorColor | src/components/voice-lab/pitch-history.tsx:63-70 | green iff voiced and within 5 cents, yellow iff voiced and within (5, 12], red iff silent or beyond 12 |
| PitchHistory.ColumnWidth | src/components/voice-lab/pitch-history.tsx:29-30 | the columns are positive and together span exactly 100% |
| PitchHistory.Rows | src/components/voice-lab/pitch-history.tsx:56-86 | one row per visible entry; a bar exactly for a voiced entry, at its column centre and in its colour |
| PitchHistory.SilentRowIsEmpty | src/components/voice-lab/pitch-history.tsx:63-86 | a silent entry is red, still takes a row, and draws no bar |
| PitchHistory.BarLeft | src/components/voice-lab/pitch-history.tsx:59-60 | the bar's left offset, the middle of its note's column; `BarInsideColumn` bounds it |
| PitchHistory.BarInsideColumn | src/components/voice-lab/pitch-history.tsx:59-60 | a bar for a note of the range is at the middle of its column, strictly between its grid lines and strictly inside (0, 100) |
| PitchHistory.GridLines | src/components/voice-lab/pitch-history.tsx:33-48 | one line per note of the range, line i for note `min + i` at `i·w` |
| PitchHistory.GridLinesInRange | src/components/voice-lab/pitch-history.tsx:33-45 | every grid line stands in [0, 100) |
| PitchHistory.IsWhiteKey | src/components/voice-lab/pitch-history.tsx:35-36 | a grid line is white when JavaScript's `n % 12` is a white-key offset; `WhiteKeyByOffset` and `NegativeNotesAreNotWhite` state which notes those are |
| PitchHistory.WhiteKeyByOffset | src/components/voice-lab/pitch-history.tsx:13-36 | for `n >= 0` a line is white iff `n % 12` is in {0, 2, 4, 5, 7, 9, 11} |
| PitchHistory.NegativeNotesAreNotWhite | src/components/voice-lab/pitch-history.tsx:35-36 | below 0, JavaScript's negative remainder makes no line white except at multiples of 12 |
| PitchDeviationMeter.ClampCents | src/components/voice-lab/pitch-deviation-meter.tsx:17 | the clamp lands in [-50, 50], is the identity there, and saturates outside |
| PitchDeviationMeter.IndicatorPosition | src/components/voice-lab/pitch-deviation-meter.tsx:20 | the indicator lies in [0, 100] |
| PitchDeviationMeter.PositionOf | src/components/voice-lab/pitch-deviation-meter.tsx:20 | the percentage position `(v - min) / range · 100` shared by the indicator and the markers; `PositionAffine` states it is `v + 50` |
| PitchDeviationMeter.VisibleMarkers | src/components/voice-lab/pitch-deviation-meter.tsx:35-37 | the guard keeps only markers whose position is in [0, 100] |
| PitchDeviationMeter.LabelAlign | src/components/voice-lab/pitch-deviation-meter.tsx:52 | left iff the value is -50, right iff it is +50 |
| PitchDeviationMeter.MarkerLine | src/components/voice-lab/pitch-deviation-meter.tsx:44 | a marker line is green iff its value is 0 |
| PitchDeviationMeter.ClampIdempotent | src/components/voice-lab/pitch-deviation-meter.tsx:17 | clamping twice is clamping once |
| PitchDeviationMeter.IndicatorLandmarks | src/components/voice-lab/pitch-deviation-meter.tsx:12-20 | -50 maps to 0, 0 to 50, 50 to 100, and ±80 saturate |
| PitchDeviationMeter.IndicatorMonotone | src/components/voice-lab/pitch-deviation-meter.tsx:17-20 | the position never decreases as the cents grow |
| PitchDeviationMeter.IndicatorAffine | src/components/voice-lab/pitch-deviation-meter.tsx:14-20 | inside the range the position is `50 + cents` |
| PitchDeviationMeter.PositionAffine | src/components/voice-lab/pitch-deviation-meter.tsx:36 | a marker's position is `value + 50` |
| PitchDeviationMeter.MarkersInRange | src/components/voice-lab/pitch-deviation-meter.tsx:22-30 | every marker value is in [-50, 50] |
| PitchDeviationMeter.NoneFiltered | src/components/voice-lab/pitch-deviation-meter.tsx:35-37 | a list of in-range markers passes the guard unchanged |
| PitchDeviationMeter.AllMarkersShown | src/components/voice-lab/pitch-deviation-meter.tsx:22-37 | all seven markers are drawn, in order |
| PitchDeviationMeter.MarkerAlignments | src/components/voice-lab/pitch-deviation-meter.tsx:52 | the first label is left-aligned, the last right-aligned, the five between centred |
| PitchDeviationMeter.OnlyCentreLineGreen | src/components/voice-lab/pitch-deviation-meter.tsx:44 | only the fourth marker, at 0 cents, has a green line |
| Piano.KeyFill | src/components/voice-lab/piano.tsx:38-39 | a key is blue iff active, and dark (black or dark blue) iff sharp |
| Piano.GetNoteDisplay | src/components/voice-lab/piano.tsx:16-20 | the label: note name then `floor(n/12) - 1`; `DisplayExamples` and `DisplayOfKeys` state its form |
| Piano.IsSharp | src/components/voice-lab/piano.tsx:27-28 | a key is sharp when its name contains `#`; `SharpByOffset` states which offsets those are |
| Piano.KeyAt | src/components/voice-lab/piano.tsx:26-41 | key i of the keyboard, for note `48 + i`; `KeysAscending`, `ExactlyOneActive` and `EndKeysRounded` state its fields |
| Piano.Keys | src/components/voice-lab/piano.tsx:25-41 | 25 keys, key i built for note `48 + i` |
| Piano.KeysAscending | src/components/voice-lab/piano.tsx:13-26 | the keys are notes 48 through 72, each one above the previous |
| Piano.ExactlyOneActive | src/components/voice-lab/piano.tsx:29 | some key is lit iff the note is in 48..72, then it is the key at `note - 48`, and never two |
| Piano.SilenceLightsNothing | src/components/voice-lab/piano.tsx:29 | the unvoiced -1 lights no key |
| Piano.EndKeysRounded | src/components/voice-lab/piano.tsx:40-41 | only the first key is rounded on the left, only the last on the right |
| Piano.SharpNames | src/components/voice-lab/piano.tsx:10 | exactly the names at positions 1, 3, 6, 8 and 10 contain `#` |
| Piano.SharpByOffset | src/components/voice-lab/piano.tsx:27-28 | a key is sharp iff `n % 12` is in {1, 3, 6, 8, 10} |
| Piano.DisplayExamples | src/components/voice-lab/piano.tsx:16-20 | 48 is "C3", 69 is "A4", 72 is "C5" |
| Piano.DisplayOfKeys | src/components/voice-lab/piano.tsx:16-20 | a key's label is its note name followed by one digit, the octave `n/12 - 1`, between 3 and 5 |
| PitchVisualizer.TimelineColumnsAreKeys | src/components/voice-lab/pitch-visualizer.tsx:23-30 | the timeline's columns over 48..72 are the keyboard's keys: same notes in the same order, white exactly where the key is not sharp |
| PitchVisualizer.KeyOfNoteIsLit | src/components/voice-lab/pitch-visualizer.tsx:23 | a detected note of the range lights the key at its offset from C3 |
| PitchVisualizer.BarUnderLitKey | src/components/voice-lab/pitch-visualizer.tsx:26-30 | that note's bar stands between its column's grid line and the next one |
| PitchVisualizer.DefaultWindowIsLastHundred | src/components/voice-lab/pitch-visualizer.tsx:26-30 | called without `maxHistoryItems`, the timeline shows the last `min(len, 100)` entries, in order |
| PitchVisualizer.ColourBandsAreMarkers | src/components/voice-lab/pitch-history.tsx:63-70 | the timeline's green band is the meter's ±5 markers and its non-red band the ±12 markers |
| PitchVisualizer.NameTablesAgree | src/components/voice-lab/piano.tsx:10 | the keyboard's name table is the page's, so both name every note alike |
| VoiceLabPage.EntryOf | src/pages/VoiceLabPage.tsx:123 | the `{ cents, noteIndex }` pair a reading appends, also at lines 149 and 152; `SilentFrameIsUnvoiced` and `ReadingIsPlausible` state its values |
| VoiceLabPage.ReadingFor | src/pages/VoiceLabPage.tsx:141-153 | no estimate gives the unvoiced reading; an estimate gives its frequency with the MIDI number and cents of noteFromPitch, the note name `noteStrings[n % 12]` and the octave `floor(n/12) - 1` of that MIDI number, which brackets it |
| VoiceLabPage.ReadingIsPlausible | src/pages/VoiceLabPage.tsx:144-147 | under the `Calibrated` assumption on the logarithm step, a voice-band reading has a note name, MIDI 39..83 and at most 50 cents; `hz > 0` exactly when voiced |
| VoiceLabPage.SilentFrameIsUnvoiced | src/pages/VoiceLabPage.tsx:120-123 | a frame under the gate gives `{0, "...", 0, -1, 0}` and appends `{0, -1}` |
| VoiceLabPage.VoiceLab.constructor | src/pages/VoiceLabPage.tsx:39-60 | permission assumed, not listening, unvoiced reading, empty history, fresh metrics and stopwatch |
| VoiceLabPage.VoiceLab.UpdatePitch | src/pages/VoiceLabPage.tsx:103-157 | without a live audio graph nothing changes; otherwise the reading is that of the frame's estimate, exactly one entry is appended with no earlier one touched, and the metrics record the frequency exactly when voiced; the page invariant is kept |
| VoiceLabPage.VoiceLab.StartPitchDetection | src/pages/VoiceLabPage.tsx:159-182 | ignored while listening; a granted microphone starts listening with permission; a refusal only clears the permission |
| VoiceLabPage.VoiceLab.StopPitchDetection | src/pages/VoiceLabPage.tsx:184-199 | not listening, graph closed, unvoiced reading, empty history |
| VoiceLabPage.VoiceLab.ResetMetrics | src/pages/VoiceLabPage.tsx:69-81 | metrics, recorded times and history emptied, stopwatch stopped at 0; the reading and listening state untouched |
| VoiceLabPage.VoiceLab.MetricsInVoiceBand | src/pages/VoiceLabPage.tsx:83-101 | `80 < min.hz <= avg <= max.hz < 1000` once anything is recorded |

## Left out

- Audio capture, `getUserMedia`, `AudioContext`, `AnalyserNode` and stopping tracks are browser I/O. A frame is a `seq<real>` input with its sample rate; the permission answer is a boolean; the state of the audio graph is one flag, `audioActive`.
- The `requestAnimationFrame` loop and the stopwatch's `setInterval`: one frame is one `UpdatePitch` call, and one interval firing is one `Tick` call.
- `Timing.Stopwatch.Tick` requires `running`, because the interval only exists while the stopwatch runs.
- The `isClient` hydration flag and its guards are React rendering machinery. They are not modelled.
- `Math.log`, `Math.pow` and `Math.round` in `noteFromPitch` are the parameter `midiOf`, from frequency to a rounded MIDI number and cents.
- `VoiceLabPage.VoiceLab.UpdatePitch` requires `Calibrated(midiOf)`: on (80, 1000) Hz the rounded MIDI number is in 39..83 and the cents in [-50, 50]. These are bounds of the logarithm formula that the model cannot compute.
- Float32 rounding, IEEE-754 NaN and infinities, and `Math.sqrt` are not modelled.
  - Samples and sums are exact reals.
  - The gate is compared without the square root.
  - An empty frame is not silent, which agrees with NaN failing the comparison.
  - A zero lag is never voiced, which agrees with Infinity failing the band.
- `toFixed(1)` display of frequencies, the note shown under the average, the toasts and all JSX/Tailwind markup are presentation. Only the colour and rounding choices listed above are modelled.
- The `scrollTop` effect of the timeline is a DOM side effect.
- `PitchHistory.ColumnWidth`, `PitchHistory.BarLeft`, `PitchHistory.Rows` and `PitchHistory.GridLines` require `minNoteIndex <= maxNoteIndex`. For an empty or reversed range the source divides by zero or by a negative count; the only caller passes 48 and 72.
- `Piano.GetNoteDisplay` and `Piano.IsSharp` take natural numbers. The keyboard only calls them on 48..72.
- The history is an unbounded sequence, as in the page. Memory growth over a long session is not modelled.
- `Js.NatToString`: JavaScript writes numbers of 1e21 and above in exponent notation, while the model writes plain decimal for every natural number. Likewise the stopwatch's time is an exact natural number, while JavaScript's is exact only up to 2^53 ms. Neither limit is reachable by a minute count or a session length.
- Patient-info form, routing page, Tailwind configuration and the saved-session type carry no behaviour. They are not part of this model.
