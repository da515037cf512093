# Hearing screening: a Dafny model of script.js

This project models the deterministic logic of a browser-based self-administered
hearing screening page, `script.js`, and proves properties of that model. It has three parts:

- **The ascending-level 1 kHz test (dB HL test).** A start level is clamped into
  [-120, 0] dBFS. Each "No" raises the level by a coerced step and plays the tone again.
  "No" at or past 0 dBFS pins the level to 0 and ends the test. "Yes" ends the test and
  reports the hearing level. Clicks while the test is not running are ignored.
  Module `Staircase` gives each handler as a transition on a `State` value.
  Class `DbHl.DbHlTest` holds `dbhlCurrentDbfs`, `dbhlRunning`, the tone log and the
  result line as fields, and runs the handlers in place.
- **The fixed sweep.** `Tones.GenerateTones` builds the 6 frequencies × 2 volumes grid,
  with one or two ears per pair. `ToneFiles` builds each tone's `.wav` name and parses
  it back. Class `Sweep.FixedSweep` holds `testMode`, `tones`, `index` and `results`.
  It presents the tones in order and appends one response per answer.
- **Scoring and the audiogram.** `Scoring` sorts the missed and heard frequencies into
  one of four bands, per ear or for both ears together. `Audiogram` runs the chart fill
  loop, which keeps the lowest heard volume per frequency and ear, or 90. It then
  builds the three series over the sorted frequencies.

JavaScript doubles are idealised as exact `real`s, so the repeated `+ step` is exact.
Numbers read from input fields are given as `JsNumber.Number`: finite, NaN or
±Infinity. The calibrated hearing level `ampToHL1k(dbfsToAmp(dbfs))` is
written in closed form, `min(dbfs, 0) + K`, with `K = 96.0 - 7.5 = 88.5`. Over the
reals this is exactly what the two functions compute: the amplitude 10^(dbfs/20)
is clamped to 1 above 0 dBFS, and it is never 0.

The start handler falls back to -90 only for an empty field (`|| "-90"`) and then
clamps the value to [-120, 0]. The step field gets a `Number.isFinite` test
(script.js:132), but the start field gets none, so a `parseFloat` NaN passes through the
clamp. The model states the clamp's evident intent, a level always in [-120, 0] that
falls back to -90. It records the difference under Findings.

## Model

| member | source | states |
|---|---|---|
| `JsNumber.Min` | script.js:101 | `Math.min` is NaN exactly when an argument is NaN; otherwise it is one of the arguments and no larger than either |
| `JsNumber.Max` | script.js:101 | `Math.max` is NaN exactly when an argument is NaN; otherwise it is one of the arguments and no smaller than either |
| `Calibration.FullScaleIsK` | script.js:9-18 | `HearingLevel` (ampToHL1k ∘ dbfsToAmp): K = 96.0 − 7.5 = 88.5; full scale maps to K dB HL; no level maps above K; every level at or above 0 dBFS maps to K |
| `Calibration.HearingLevelIncreasing` | script.js:25-32 | `HearingLevel`: below full scale the hearing level strictly increases with the dBFS level, dB for dB |
| `Staircase.StartLevel` | script.js:100-101 | the start level is in [-120, 0]: -120 at or below -120, 0 at or above 0, the value itself in between; ±Infinity go to the bounds; an empty field gives -90 |
| `Staircase.EffectiveStep` | script.js:131-132 | the step is always > 0; a finite positive step is used as given; any other value becomes 2.0 |
| `Staircase.InitialAndOpened` | script.js:63-96 | `Initial` and `Opened` (startDbHlTest): the page starts idle at -90 within range; opening the test clears the log and result, stops the test and keeps the level |
| `Staircase.StartClamps` | script.js:99-110 | `Started` (the Start handler): after Start the level is max(-120, min(0, x)) and the test runs; one tone is played at that level; the result line is unchanged |
| `Staircase.HandlersKeepValid` | script.js:99-149 | `Opened`, `Started`, `Replayed`, `AnsweredYes`, `AnsweredNo`: every handler keeps the level and every level played within [-120, 0] |
| `Staircase.IdleResponsesIgnored` | script.js:113-129 | while not running, Replay, Yes and No leave the whole state unchanged and play nothing |
| `Staircase.ReplayKeepsState` | script.js:113-115 | `Replayed` (the Replay handler): while running, Replay replays the current level and changes neither level, running flag nor result |
| `Staircase.YesStops` | script.js:118-125 | `AnsweredYes` (the Yes handler): while running, Yes stops the test at the unchanged level and reports the hearing level of that level |
| `Staircase.NoStepsUp` | script.js:134-147 | `AnsweredNo` (the No handler): if current + step < 0, the new level is exactly current + step; it is above the old level and below 0; that tone is played and the test keeps running |
| `Staircase.NoHitsCeiling` | script.js:134-143 | `AnsweredNo`: if current + step >= 0, the level becomes exactly 0, the test stops and the ceiling K is reported, however large the step; nothing is played |
| `Staircase.PressNoIdle` | script.js:128-129 | any number of No clicks after the test stopped change nothing |
| `Staircase.Ascent` | script.js:144-147 | `PressNo` (repeated `AnsweredNo`): n No clicks with step x that stay below 0 leave the test running at exactly L + n·x; they play L + x, …, L + n·x, in order |
| `Staircase.StopsAtCeiling` | script.js:136-143 | whenever L + n·x >= 0, n No clicks have stopped the test at exactly 0 dBFS with the ceiling reported |
| `Staircase.DefaultRun` | script.js:99-149 | an empty start field (so -90) and an unreadable step field (NaN, so step 2.0): 44 No clicks reach -2 dBFS and play -88, -86, …; the 45th ends the test at exactly 0 |
| `Staircase.ClampAsWrittenNaN` | script.js:100-101 | the clamp as written maps NaN to NaN; on every other value it agrees with `StartLevel` |
| `DbHl.DbHlTest.constructor` | script.js:63-65 | the globals start at level -90, not running, with an empty log and result |
| `DbHl.DbHlTest.Open` | script.js:81-96 | startDbHlTest clears the result and log and sets running to false |
| `DbHl.DbHlTest.PlayTone` | script.js:67-79 | a played tone adds the current level to the log and changes nothing else |
| `DbHl.DbHlTest.Start` | script.js:99-110 | the Start handler updates the fields as `Started` prescribes |
| `DbHl.DbHlTest.Replay` | script.js:113-115 | the Replay handler updates the fields as `Replayed` prescribes |
| `DbHl.DbHlTest.Yes` | script.js:118-125 | the Yes handler updates the fields as `AnsweredYes` prescribes |
| `DbHl.DbHlTest.No` | script.js:128-149 | the No handler updates the fields as `AnsweredNo` prescribes |
| `Ordering.SortedDistinct` | script.js:243 | `[...new Set(xs)].sort((a, b) => a - b)` is strictly ascending and holds exactly the values of xs |
| `Ordering.SortedDistinctCount` | script.js:225-226 | its length is the number of distinct values of xs |
| `Tones.GenerateTones` | script.js:170-186 | 24 tones in headphones mode and 12 otherwise; tone i is frequency i/4, volume (i/2) mod 2 and ear left/right by parity (headphones), or frequency i/2, volume i mod 2 and ear both |
| `Tones.GridOrdered` | script.js:175-184 | the grid is ordered by frequency 250…8000, then 20 before 40, then left before right; no tone appears twice |
| `Tones.GridCoverage` | script.js:171-184 | a tone is in the grid exactly when its frequency is one of the six, its volume is 20 or 40, and its ear is one the mode tests |
| `ToneFiles.StemRoundTrip` | script.js:196-197 | `FileStem`, with `ParseStem` as its inverse: the name `{freq}Hz_{vol}dB[_{ear}]` of every tone parses back to that tone |
| `ToneFiles.StemInjective` | script.js:196-198 | `FileStem` and `AudioSource`: different tones get different file names and audio sources |
| `ToneFiles.GridFilesDistinct` | script.js:196-198 | every tone of the grid is played from its own file |
| `ToneFiles.NameExamples` | script.js:196-198 | 250 Hz, 20 dB, both ears is `250Hz_20dB`; 8000 Hz, 40 dB, right is `audio/8000Hz_40dB_right.wav` |
| `Scoring.FreqsWhere` | script.js:220-223 | the collected frequencies are those of the responses with the given heard flag |
| `Scoring.OfEar` | script.js:239-240 | the filter keeps exactly the responses of the given ear |
| `Scoring.ClassifyMeaning` | script.js:225-254 | `Classify` (summarizeEar's banding): with M the set of missed and H the set of heard frequencies: Normal iff M is empty; Minor iff 1 ≤ \|M\| ≤ 2, listing M in ascending order; Mild iff \|M\| ≥ 3 and \|H\| ≥ 3, sampling the three lowest of M; Significant iff \|M\| ≥ 3 and \|H\| < 3; a frequency missed at any level is in M |
| `Scoring.ClassifySameAnswers` | script.js:217-226 | the band depends only on which responses were given, not on their order or repetition |
| `Scoring.SummarySameAnswers` | script.js:208-261 | so does the whole summary |
| `Scoring.SummaryForm` | script.js:208-261 | `Summarize` (generateSummary): no results give the empty summary; any single-ear response gives the Left band then the Right band, each scored on that ear alone; otherwise one combined band, the band of all the results, with every response for both ears |
| `Scoring.NothingMissed` | script.js:228-229 | nothing missed: normal |
| `Scoring.TwoMissed` | script.js:230-231 | 500 and 4000 missed: minor, listing [500, 4000] |
| `Scoring.ThreeMissedFourHeard` | script.js:232-233 | 250, 1000 and 8000 missed with four heard frequencies: mild, sampling [250, 1000, 8000] |
| `Scoring.FiveMissedOneHeard` | script.js:234-235 | five missed and one heard: significant |
| `Audiogram.FillChart` | script.js:294-305 | against `EarLevels` (a fold of `Fill`): the fill loop's three maps are the per-ear results of folding the fill step over the results in order |
| `Audiogram.EarLevelsKeys` | script.js:296-301 | an ear's map has an entry exactly for the frequencies tested on that ear |
| `Audiogram.EarLevelsBelowHeard` | script.js:302-303 | an entry is at most every volume heard at that frequency and ear |
| `Audiogram.EarLevelsAttained` | script.js:300-304 | an entry is 90 or a volume heard at that frequency and ear |
| `Audiogram.EarLevelsMeaning` | script.js:293-305 | `EarLevels`: the three facts above for every frequency; an entry is 90 when nothing was heard there |
| `Audiogram.LowestHeardLevel` | script.js:293-305 | when no volume exceeds 90, an entry is the lowest heard volume, or 90 if none was heard |
| `Audiogram.LabelsAreKeys` | script.js:307-312 | the frequencies of the results are, together, the keys of the three maps |
| `Audiogram.AudiogramLabels` | script.js:307-317 | `Chart` (with `Series`): the labels are the union of the three maps' keys, ascending; each series has one point per label, present exactly where its ear was tested; a present point is 90 or a volume heard there, and no more than any volume heard there |
| `Sweep.FixedSweep.constructor` | script.js:1-3 | the globals start with mode "both", no tones, index 0 and no results |
| `Sweep.FixedSweep.StartTest` | script.js:154-168 | a started sweep (`Sweeping`) with a fresh grid for the mode, index 0, no results, and the first tone's question |
| `Sweep.FixedSweep.LoadNextTone` | script.js:188-199 | the screen `ScreenFor` chooses: the next tone with its audio source, or the summary and chart once every tone is answered; results appear exactly when there are as many responses as tones, and then, in a started sweep, the results are those of a completed sweep |
| `Sweep.FixedSweep.ShowResults` | script.js:265-317 | the results screen holds the summary of the results and the audiogram built from the fill loop |
| `Sweep.FixedSweep.RecordResponse` | script.js:201-206 | appends the current tone with the answer and advances the index; response i is always for tone i; a started sweep stays started |
| `Sweep.SweepCompletes` | script.js:154-206 | a started sweep with every tone answered holds the answers of a completed sweep, so the Completed lemmas below apply to the results screen |
| `Sweep.CompletedFrequencies` | script.js:175-186 | in a completed sweep every tested ear answered exactly the six frequencies |
| `Sweep.CompletedSummary` | script.js:208-261 | a completed sweep is summarised per ear exactly in headphones mode, as the bands of the left and of the right responses, and otherwise as one band of all the responses; each ear, or both together, is scored over all six frequencies |
| `Sweep.CompletedChartLabels` | script.js:307-312 | the audiogram of a completed sweep is labelled 250, 500, 1000, 2000, 4000, 8000 |
| `Sweep.CompletedChartLevels` | script.js:293-305 | in a completed sweep every tested ear has a point at each frequency: the lowest heard volume, or 90 |

## Left out

- generating_audio.py is not part of this model. It only does file-system I/O, random digit choice and audio concatenation.
- `playSineBuffer` (script.js:34-61) is not modelled: Web Audio synthesis, the fade loop over a float buffer, and waiting for playback to end. `DbHl.DbHlTest.PlayTone` records only the level in the tone log.
- `dbfsToAmp` and `ampToHL1k` have no `pow` or `log10` in Dafny. Their composition is used in closed form over the reals. Floating-point rounding and the underflow to amplitude 0 (below about -6470 dBFS, where 10^(d/20) falls under the smallest double, about 4.9e-324, which the clamped level never reaches) are not modelled.
- JavaScript doubles are idealised as exact reals. The repeated `+ step` has no rounding in the model.
- `parseFloat` of the input fields is not modelled. Handlers receive the parsed value: `Option<Number>` for the start field (None is the empty field) and `Number` for the step field.
- DOM work is not modelled: status and log text formatting, the question label, button visibility, the results table, the exact emoji summary strings and the Chart.js rendering (script.js:319-377). Bands are datatype values that carry the frequencies the text lists.
- The handlers are atomic, sequential steps. The `await` points and overlapping clicks that the page does not lock out are not modelled.
- Staircase.Started: uses the corrected clamp `StartLevel`, so a NaN start field gives -90 where the source's level becomes NaN (see Findings; `Staircase.ClampAsWrittenNaN` models the code as written).
- DbHl.DbHlTest.Start: follows `Staircase.Started`, so it too gives -90 for a NaN start field where the source gives NaN.
- Sweep.FixedSweep.RecordResponse: requires a pending tone. Its buttons are hidden once the results are shown (script.js:272), so the source's behaviour on a click past the end (pushing an entry without a tone) is not modelled.
- `Audiogram.Chart` takes its labels from the results' frequencies, not from `Object.keys` of the three maps. `Audiogram.LabelsAreKeys` proves the two sets are equal.
- `Scoring.HeardFreqs` sorts the heard frequencies, and summarizeEar does not sort them. Only their number is used, so the result is the same.
- The sweep mode is a string, and only `"headphones"` is told apart, as in generateTones. Frequencies and volumes are natural numbers.

## Findings

| source | as written | input that shows it | evidently intended | confidence | as-written member | corrected member |
|---|---|---|---|---|---|---|
| script.js:100-101 | `Math.max(-120, Math.min(0, parseFloat(v \|\| "-90")))` lets NaN through: both `Math.min` and `Math.max` return NaN for it | a start field holding non-numeric text such as `abc`: `parseFloat` gives NaN, so `dbhlCurrentDbfs` becomes NaN, outside [-120, 0] | a start level always in [-120, 0], with unreadable input taking the empty-field default of -90 | low, not executed; it depends on whether the field in index.html (not part of this model) can hold non-numeric text | `Staircase.ClampAsWrittenNaN` | `Staircase.StartLevel` |
