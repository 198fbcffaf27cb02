# Beat detector and drum machine, modelled in Dafny

This project models the logic of a browser tempo detector and drum machine.

The `BPMDetector` controller (app.js) does the following:
- keeps the last 8 detected beat times and the last 4 taps;
- derives a tempo from each list;
- publishes that tempo in `fixedBPM` when it lies in [40, 220];
- lets the user edit a 16-step drum grid;
- schedules drum triggers for the rock, funk, jazz or custom style half a second ahead of the audio clock.

The `AudioProcessor` (audioProcessor.js) does the following:
- records intervals between energy peaks of the microphone signal;
- turns them into a tempo with interquartile-range trimming and an exponentially weighted tempo history;
- tracks whether detected tempi have settled on a fixed tempo. The answer is true once four consecutive checks each found all of the last four readings within ±10 BPM of it. After `setFixedBPM` that is the fourth reading; after a reading out of tolerance it is the seventh good one.

`RhythmPatterns` (rhythmPatterns.js) is a table of named 16-step patterns. It supports a normalised read, an editable custom slot and a randomly regenerated slot.

Modules and files:

| module | file | models |
|---|---|---|
| `Common` | common.dfy | the shared pieces: optional values (`null`), the three voices, bounded histories (`push` and then `shift`), sums and means, and `Math.round` |
| `TempoEstimate` | tempo_estimate.dfy | the arithmetic of `calculateBPM` and `calculateTapBPM` |
| `DrumPatterns` | drum_patterns.dfy | the drum patterns as lists of trigger requests, and the run of beats one scheduling pass queues |
| `BpmDetectorApp` | bpm_detector.dfy | the `BPMDetector` class, with its mutable state |
| `RhythmStats` | rhythm_stats.dfy | the sorting, trimming and weighted averaging of `AudioProcessor` |
| `AudioProcessorModel` | audio_processor.dfy | the `AudioProcessor` class: its consistency tracker, `calculateBPM`, and one tick of the analysis loop |
| `RhythmPatternLibrary` | rhythm_patterns.dfy | the `RhythmPatterns` class |

How the JavaScript is mapped:
- Milliseconds are integers, and audio-clock seconds and energies are exact reals.
- Clock readings (`Date.now()`, the audio clock), frame energies and `Math.random` draws are parameters.
- `null`/`undefined` is `Option.None`.

Constants of the code that the model keeps:
- a detected tempo is published only in [40, 220] (app.js:209), and a trimmed tempo joins the history only in [40, 240] (audioProcessor.js:142);
- a tap tempo is published only in [40, 220] (app.js:285);
- the consistency check keeps the last 4 readings and counts a check as consistent when all of them lie within ±10 BPM of the fixed tempo; 4 consistent checks in a row answer true (audioProcessor.js:18-24, 84-110);
- the silence reset waits 5 s (audioProcessor.js:14, 255);
- the onset threshold is 0.15 times the mean energy (audioProcessor.js:13, 223).

## Model

| member | source | states |
|---|---|---|
| Common.PushBounded | app.js:175-180 | a push followed by at most one shift keeps at most `cap` entries and ends with the new entry; below the cap it is a plain append |
| Common.PushBoundedEntry | app.js:175-180 | every entry of the bounded history is the entry of the old history plus the new one that the eviction shifted into its place, so the result is the newest suffix |
| Common.Round | app.js:202 | `Math.round`: the result lies within half a unit of its argument, and halves round up |
| Common.RoundWithin | audioProcessor.js:170 | rounding a value that lies between two integers stays between them |
| Common.BpmFromMeanInterval | app.js:201-202 | `round(60000 / mean)` of intervals with a positive sum is a non-negative tempo |
| Common.ConstantMean | app.js:201 | the mean of a list whose entries are all equal is that value |
| TempoEstimate.Intervals | app.js:188-191 | one interval fewer than timestamps; interval `i` is `t[i+1] - t[i]` |
| TempoEstimate.IntervalsTelescope | app.js:188-191 | the intervals add up to the last timestamp minus the first |
| TempoEstimate.InlierIsPositive | app.js:195-197 | an interval that passes the filter is positive and so is the mean |
| TempoEstimate.Inliers | app.js:194-197 | an interval survives exactly when it differs from the mean by strictly less than half the mean; nothing is added |
| TempoEstimate.InliersConcat | app.js:194-197 | filtering two lists one after the other is filtering their concatenation |
| TempoEstimate.InliersKeepAll | app.js:194-197 | when every interval passes, the filter returns the list unchanged |
| TempoEstimate.InliersSumPositive | app.js:199-201 | a non-empty filtered list has a positive sum, so its mean can be divided by |
| TempoEstimate.OctaveCorrect | app.js:204-206 | a tempo below 60 is doubled, one in [60, 200] kept, one above 200 halved with rounding |
| TempoEstimate.OctaveCorrectInWindow | app.js:204-209 | the corrected tempo is in [40, 220] exactly when the raw tempo is in [20, 440] |
| TempoEstimate.DetectedBpm | app.js:185-213 | no estimate with fewer than 4 beats or fewer than 2 surviving intervals; any estimate lies in [40, 220] |
| TempoEstimate.SteadyBeats | app.js:185-213 | a steady pulse of gap `g` keeps every interval and yields the corrected `round(60000 / g)`, if in range |
| TempoEstimate.OneDoubledGapIsFiltered | app.js:193-202 | beats 500 ms apart with one 2000 ms gap: the long gap is rejected and the tempo is 120 |
| TempoEstimate.DoubledGapIntervals | app.js:188-194 | the beats 0, 500, 1000, 1500, 3500, 4000 ms have intervals 500, 500, 500, 2000, 500 with mean 800 |
| TempoEstimate.DoubledGapInliers | app.js:194-197 | against that mean the four 500 ms intervals pass and the 2000 ms one is dropped |
| TempoEstimate.LongGapRejected | app.js:194-197 | a 2000 ms interval is more than half of 800 ms away from the mean, a 500 ms one is not |
| TempoEstimate.TapBpm | app.js:270-289 | no tempo from fewer than 2 taps; any tap tempo lies in [40, 220] |
| TempoEstimate.TapBpmClosedForm | app.js:277-285 | the tap tempo is `round(60000 (k-1) / (last - first))` for k taps |
| TempoEstimate.FourTapsAtHalfSecond | app.js:270-289 | four taps 500 ms apart give 120 BPM |
| DrumPatterns.Grid.Toggled | app.js:66-69 | the toggled step flips and every other step of every voice keeps its value |
| DrumPatterns.BeatLength | app.js:523 | a positive tempo gives a positive beat length `60 / bpm` |
| DrumPatterns.SixteenthsIncrease | app.js:401-404 | later sub-beats of a beat start strictly later |
| DrumPatterns.StepIndex | app.js:385 | for beat and sub-beat in [0, 4) the grid index lies in [0, 16) |
| DrumPatterns.CustomStep | app.js:384-396 | at most one trigger per voice (no two triggers share a voice), all at the step's time; kick at 1.2 on beat 0 and 1.0 otherwise, snare at 0.8, hi-hat accented only on the first step |
| DrumPatterns.CustomStepFollowsGrid | app.js:384-396 | a voice sounds at the step exactly when its grid step is set |
| DrumPatterns.CustomBeatFollowsGrid | app.js:398-404 | on a custom beat, voice `v` sounds at sub-beat `i` exactly when grid step `4*beatNumber + i` is set |
| DrumPatterns.CustomBeatWithinBeat | app.js:401-404 | every custom trigger lies within its beat |
| DrumPatterns.RockFillBeat | app.js:421-425 | the rock fill has four snares a sixteenth apart, with velocities 0.7, 0.6, 0.5 and 0.4 |
| DrumPatterns.RockGroove | app.js:426-437 | a kick on even beats (1.2 on the downbeat, 1.0 on the third), a snare on odd beats (0.9 on the fourth, 0.8 on the second), and a hi-hat accented on the downbeat |
| DrumPatterns.RockBeat | app.js:420-438 | triggers lie within the beat; the beat is all snares exactly in a fill (bar not 0, fourth beat) |
| DrumPatterns.FunkFillBeat | app.js:441-446 | three snares at 0.7, a third of a beat apart |
| DrumPatterns.FunkGroove | app.js:447-464 | it starts with the on-beat hi-hat, accented on the downbeat, and stays within the beat |
| DrumPatterns.FunkGrooveVoices | app.js:451-463 | exactly which kicks and snares each beat plays, including the "and" kick of beat 4, which only bar 0 plays, and that no other kick or snare follows the hi-hat |
| DrumPatterns.FunkBeat | app.js:440-465 | triggers lie within the beat; all snares exactly on the late beats of a bar other than 0 |
| DrumPatterns.JazzFillBeat | app.js:468-477 | four snares on the sixteenths, with the second and fourth 0.33 s late, and velocity rising from 0.6 in steps of 0.1 |
| DrumPatterns.JazzGroove | app.js:478-493 | a ride hi-hat swung on odd beats; the eighth-note hi-hat only in bar 0; otherwise only kicks follow the ride |
| DrumPatterns.JazzGrooveKicks | app.js:483-487 | a kick at 1.1 exactly on beat 0 and at 0.9 exactly on beat 2 |
| DrumPatterns.JazzBeat | app.js:467-494 | triggers lie within the beat plus the swing delay; all snares exactly on the late beats of a bar other than 0 |
| DrumPatterns.CreateBeats | app.js:398-418 | one beat of the selected style lies within the beat (jazz: plus the swing delay) |
| DrumPatterns.FillsFromSecondBarOn | app.js:406-421 | because the bar number is passed as the "last bar" flag, rock fills the fourth beat of every bar but bar 0 |
| DrumPatterns.Advanced | app.js:523 | the scheduling clock never moves back and moves forward with every beat |
| DrumPatterns.AdvancedSplit | app.js:520-525 | advancing `n + m` beats is advancing `n` and then `m` |
| DrumPatterns.Slots | app.js:520-524 | beat `k` of a pass is queued at the clock after `k` beats, with counter `count + k` |
| DrumPatterns.SlotsSplit | app.js:520-525 | queuing `n + m` beats is queuing `n` beats and then `m` more from where the first `n` stopped |
| DrumPatterns.RenderSlotsStep | app.js:520-525 | queuing one more beat of a pass appends the triggers of the beat at the clock after `n` beats, with counter `count + n` |
| DrumPatterns.RenderSnoc | app.js:522 | queuing one more beat appends that beat's triggers |
| DrumPatterns.RenderConcat | app.js:520-525 | the triggers of two consecutive runs of beats are the concatenation of their triggers |
| DrumPatterns.BeatRunSplit | app.js:517-529 | two scheduling passes queue exactly what one pass over all their beats would |
| DrumPatterns.BeatRunStep | app.js:520-525 | one more loop iteration appends `createBeats(clock, count % 4, count / 4)` |
| DrumPatterns.BeatRunWithinSpan | app.js:520-525 | outside jazz, a run of beats lies between its start and the clock after it |
| BpmDetectorApp.Published | app.js:209-213 | `fixedBPM` takes the estimate when there is one and otherwise keeps its value |
| BpmDetectorApp.TapHistory | app.js:254-265 | a pause longer than 2000 ms restarts the history; otherwise the tap is appended and only the last 4 taps are kept |
| BpmDetectorApp.EstimateTempo | app.js:185-213 | the step-by-step computation (intervals, filter, rounding, octave correction, range check) returns exactly `DetectedBpm` |
| BpmDetectorApp.RunScheduler | app.js:517-526 | the loop stops at the first clock at or past the horizon, has advanced it one beat per queued beat, queues nothing when already past it, and queues exactly the triggers of those beats |
| BpmDetectorApp.ComputeIntervals | app.js:188-191 | the loop computes exactly the consecutive differences |
| BpmDetectorApp.BeatsLeftDecrease | app.js:520-523 | each scheduled beat uses up one beat length of the look-ahead, so the loop ends |
| BpmDetectorApp.BpmDetector.constructor | app.js:2-17 | 120 BPM, custom style, empty histories (taps included), and the default grid when the grid buttons exist |
| BpmDetectorApp.BpmDetector.BeatDetected | app.js:173-183 | at most 8 beat times, newest last; `fixedBPM` becomes the detected estimate if there is one |
| BpmDetectorApp.BpmDetector.CalculateBpm | app.js:185-214 | `fixedBPM` changes exactly to the detected estimate when there is one and nothing else changes |
| BpmDetectorApp.BpmDetector.HandleTap | app.js:245-268 | the tap history follows `TapHistory`, the last tap is `now`, and `fixedBPM` takes the tap tempo if it is in range |
| BpmDetectorApp.BpmDetector.CalculateTapBpm | app.js:270-290 | `fixedBPM` changes exactly to the tap tempo when there is one |
| BpmDetectorApp.BpmDetector.ToggleStep | app.js:66-69 | exactly one grid step flips |
| BpmDetectorApp.BpmDetector.SetPattern | app.js:496-502 | the style changes and nothing else does |
| BpmDetectorApp.BpmDetector.ToggleListening | app.js:216-231 | starting clears `fixedBPM` and the beat history; stopping only lowers the flag |
| BpmDetectorApp.LoopStepAsWritten | app.js:136-167 | a click toggles the listening flag and never leaves a new frame waiting, because the first `analyze` runs inside `initAudio` before the flag is raised (app.js:216-221); a frame is analysed exactly when one is waiting and listening is on |
| BpmDetectorApp.LoopStepCorrected | app.js:216-231 | the same flag and frame rule, but a start leaves a frame waiting, so listening always implies a waiting frame |
| BpmDetectorApp.LoopRun | app.js:127-171 | a run of clicks and frames analyses at most one frame per event |
| BpmDetectorApp.ListeningFrames | app.js:136 | the frames arriving while listening, at most one per event: the frames the loop ought to analyse |
| BpmDetectorApp.OnsetLoopNeverAnalyses | app.js:216-221 | as written, from the page as loaded no frame is ever analysed and `beatDetected` is never called, however the button is clicked |
| BpmDetectorApp.OnsetLoopFollowsListening | app.js:127-171 | started as intended, the loop analyses exactly the frames that arrive while listening |
| BpmDetectorApp.BpmDetector.ScheduleBeats | app.js:517-526 | afterwards the clock is at least 0.5 s ahead, each beat advanced it by `60 / fixedBPM` and the counter by one, and the triggers are exactly those of the beats run |
| BpmDetectorApp.BpmDetector.ToggleRhythm | app.js:504-544 | starting resets the clock and counter and runs a first pass; stopping queues nothing |
| BpmDetectorApp.TapAsWritten | app.js:254-260 | with the tap fields unassigned, a tap throws before storing anything; with them assigned it is `TapHistory` |
| BpmDetectorApp.TapSessionAsWritten | app.js:245-268 | a session of taps yields one outcome per tap; a tap that throws leaves the tap fields as they were |
| BpmDetectorApp.UninitialisedTapsAlwaysThrow | app.js:245-268 | from the constructor (app.js:2-58)'s state, every tap of a session throws and both tap fields stay unassigned |
| BpmDetectorApp.InitialisedTapsNeverThrow | app.js:245-268 | with both tap fields assigned, no tap of a session throws, each stores its own time, and the last tap time ends as the last tap |
| RhythmStats.Insert | audioProcessor.js:123 | inserting into a sorted list keeps it sorted and adds exactly the entry, which comes first when it is no larger than the old head |
| RhythmStats.SortAscending | audioProcessor.js:123 | the numeric sort is sorted, a permutation, and of the same length |
| RhythmStats.LowerQuartileIndex | audioProcessor.js:124 | `floor(0.25 n)` is a valid index |
| RhythmStats.UpperQuartileIndex | audioProcessor.js:125 | `floor(0.75 n)` is a valid index at or above the lower quartile's |
| RhythmStats.IqrFences | audioProcessor.js:124-128 | the fences enclose both quartiles, and `q1 <= q3` |
| RhythmStats.KeepBetween | audioProcessor.js:131-133 | a value in the closed range is kept as often as it occurs, and any other value never |
| RhythmStats.IqrFiltered | audioProcessor.js:123-133 | an interval between the fences of the sorted copy is kept as often as it was recorded, and any other interval never |
| RhythmStats.IqrKeepsQuartiles | audioProcessor.js:124-136 | both quartiles survive, so the filtered list is never empty |
| RhythmStats.FilteredAbove | audioProcessor.js:131-133 | trimming only removes intervals, so a lower bound on all intervals holds for the kept ones |
| RhythmStats.IqrBpm | audioProcessor.js:119-139 | no tempo from fewer than 4 intervals; a tempo is never negative |
| RhythmStats.IqrBpmBetween | audioProcessor.js:130-139 | the tempo is `round(60000 / mean)` of the kept intervals; when they all lie in `[lo, hi]` ms, so does the mean, and the tempo lies between the rounded tempi of `hi` and `lo` |
| RhythmStats.MeanBetween | audioProcessor.js:135-136 | the mean of entries that all lie in a range lies in it |
| RhythmStats.IqrBpmOfLongIntervals | audioProcessor.js:119-139 | intervals all above `gap` ms give a tempo of at most `60000 / gap` (rounded) |
| RhythmStats.QuartilesAgreeKeepOnly | audioProcessor.js:124-133 | when both quartiles equal `g`, exactly the intervals equal to `g` are kept |
| RhythmStats.QuartilesAgree | audioProcessor.js:119-139 | when both quartiles equal `g`, the tempo is `round(60000 / g)` whatever the outliers |
| RhythmStats.SteadyIntervals | audioProcessor.js:119-139 | equal intervals are kept unchanged and give `round(60000 / g)` |
| RhythmStats.KeepAllBetween | audioProcessor.js:131-133 | when every entry is within the range, the filter keeps the list unchanged |
| RhythmStats.Weight | audioProcessor.js:161-163 | every weight `1.5^(i-n+1)` is positive |
| RhythmStats.NewestWeightIsOne | audioProcessor.js:161-163 | the newest entry has weight 1 |
| RhythmStats.WeightRatio | audioProcessor.js:161-163 | each weight is 1/1.5 of the next one |
| RhythmStats.DotBounds | audioProcessor.js:165-168 | the weighted sum lies between the smallest and largest entry times the total weight |
| RhythmStats.WeightedAverageBpm | audioProcessor.js:156-171 | null exactly for an empty history |
| RhythmStats.WeightedAverageWithin | audioProcessor.js:156-171 | the weighted average lies between the history's bounds |
| RhythmStats.SteadyHistory | audioProcessor.js:156-171 | a history of one repeated tempo averages to that tempo |
| AudioProcessorModel.WindowStep | audioProcessor.js:93-110 | a check keeps the window at 4 readings or fewer, with at least `min(run, 4)` of them, all within tolerance while the run is positive; a run of 4 means a full window |
| AudioProcessorModel.AudioProcessor.constructor | audioProcessor.js:2-30 | empty histories, no fixed tempo, last beat and last peak at 0 |
| AudioProcessorModel.AudioProcessor.Uninitialised | audioProcessor.js:2-30 | the constructor as written: the last peak time is missing |
| AudioProcessorModel.AudioProcessor.StartListening | audioProcessor.js:38-71 | a granted microphone starts listening and a fresh analysis session; a refusal changes nothing |
| AudioProcessorModel.AudioProcessor.StopListening | audioProcessor.js:73-82 | only the listening flag changes |
| AudioProcessorModel.AudioProcessor.CheckConsistency | audioProcessor.js:84-111 | a falsy fixed tempo gives false and no change; otherwise the window gains the reading (at most 4) and the run grows by 1 or drops to 0; true iff the run is at least 4, and then the last 4 readings are all within ±10 |
| AudioProcessorModel.AudioProcessor.SetFixedBpm | audioProcessor.js:113-117 | sets the fixed tempo, empties the window and zeroes the run |
| AudioProcessorModel.AudioProcessor.CalculateBpm | audioProcessor.js:119-154 | with 4 or more intervals the trimmed tempo exists; in [40, 240] it joins the history (at most 16) and the weighted average is returned, itself in [40, 240]; otherwise null and the history is unchanged |
| AudioProcessorModel.AudioProcessor.Analyze | audioProcessor.js:184-264 | quiet frames or not listening change nothing; otherwise the energy history grows; a beat occurs exactly when the frame beats 0.15 times the mean, beats the session's peak energy and comes more than 200 ms after the last peak; peak energy never falls; once a peak was seen the silence reset never fires |
| AudioProcessorModel.AudioProcessor.RecordBeat | audioProcessor.js:232-246 | the interval from the last beat is recorded (at most 16) only when there was one; the beat becomes the last beat and peak |
| AudioProcessorModel.AudioProcessor.CheckSilence | audioProcessor.js:254-260 | before the first peak, more than 5 s since the last peak clears the intervals, last beat and tempo history; otherwise no change |
| AudioProcessorModel.PushKeepsAbove | audioProcessor.js:233-240 | recorded intervals stay above 200 ms |
| AudioProcessorModel.PushKeepsLoud | audioProcessor.js:205-214 | the energy history holds only frames at or above the amplitude threshold |
| AudioProcessorModel.UninitialisedNeverDetects | audioProcessor.js:220-225 | with the last peak time missing, no frame is ever a beat and no tempo is produced |
| AudioProcessorModel.FirstLoudFrameIsABeat | audioProcessor.js:216-247 | with the last peak time at 0, the first loud frame after 200 ms is a beat |
| AudioProcessorModel.ConstantLoudnessBeatsOnce | audioProcessor.js:223-245 | frames of one constant energy give at most one beat per session |
| AudioProcessorModel.OutlierDelaysSettling | audioProcessor.js:84-117 | after a fixed tempo is set, one reading out of tolerance answers false and stays in the window; the readings within ±10 that follow answer false six times and true from the seventh on |
| AudioProcessorModel.SteadyReadingsSettle | audioProcessor.js:84-117 | after a fixed tempo is set, readings within ±10 answer false three times and then true |
| RhythmPatternLibrary.Pattern.WithRow | rhythmPatterns.js:72 | replaces one row and keeps the others, the name and the description |
| RhythmPatternLibrary.Normalized | rhythmPatterns.js:62-64 | same length, only 0 and 1, and the same truthiness step by step |
| RhythmPatternLibrary.NormalizedKeepsBits | rhythmPatterns.js:62-64 | a 0/1 row normalises to itself |
| RhythmPatternLibrary.NormalizedIdempotent | rhythmPatterns.js:62-64 | normalising twice is normalising once |
| RhythmPatternLibrary.VoiceNamed | rhythmPatterns.js:69 | exactly "kick", "snare" and "hihat" select a row |
| RhythmPatternLibrary.InitialPatternsWellFormed | rhythmPatterns.js:4-54 | the table has exactly the seven declared keys, and every row of every pattern has 16 steps |
| RhythmPatternLibrary.DrawIndex | rhythmPatterns.js:85-89 | the draw for a non-forced step is one of the 14 a row consumes |
| RhythmPatternLibrary.StepOfDraw | rhythmPatterns.js:85-89 | every draw decides a step other than 0 and 8 |
| RhythmPatternLibrary.DrawIndexBijective | rhythmPatterns.js:85-89 | draws and non-forced steps correspond one to one |
| RhythmPatternLibrary.DrawnIsBits | rhythmPatterns.js:78-90 | a random row holds only 0 and 1 |
| RhythmPatternLibrary.DrawnIsUnique | rhythmPatterns.js:78-90 | the draws determine the random row |
| RhythmPatternLibrary.RandomBeats | rhythmPatterns.js:78-91 | 16 steps, steps 0 and 8 set, every other step set exactly when its draw is below the weight |
| RhythmPatternLibrary.RhythmPatterns.constructor | rhythmPatterns.js:2-55 | the custom pattern is current and the table is the declared one |
| RhythmPatternLibrary.RhythmPatterns.GetPattern | rhythmPatterns.js:57-66 | an unknown name reads the custom pattern; rows have 16 steps of 0/1 with the stored truthiness, and the name and description are copied |
| RhythmPatternLibrary.RhythmPatterns.SetCustomPattern | rhythmPatterns.js:68-74 | an unknown instrument changes nothing; otherwise only that custom row changes: the step takes `value ? 1 : 0`, the other steps keep their truthiness as 0/1 |
| RhythmPatternLibrary.RhythmPatterns.GenerateRandomPattern | rhythmPatterns.js:76-99 | only the random slot changes, and it is returned; each row is drawn with weight 0.15, 0.2 and 0.4 respectively, from consecutive runs of 14 draws |
| RhythmPatternLibrary.RhythmPatterns.GetAllPatterns | rhythmPatterns.js:101-107 | one summary per key, in declaration order, with the stored name and description; every pattern appears |
| RhythmPatternLibrary.UnknownNameIsCustom | rhythmPatterns.js:58 | a name outside the table reads as the custom pattern |
| RhythmPatternLibrary.PresetReadsBack | rhythmPatterns.js:57-66 | a 0/1 preset reads back exactly as stored |
| RhythmPatternLibrary.GetPatternIsNormalized | rhythmPatterns.js:59-65 | reading back is already normalised |
| RhythmPatternLibrary.RandomDownbeats | rhythmPatterns.js:80-82 | after regeneration every row has steps 0 and 8 set, whatever the draws |

## Left out

- RhythmPatternLibrary.RhythmPatterns.GenerateRandomPattern: rhythmPatterns.js:98 returns the stored `this.patterns.random` object itself, so a caller that edits the result edits the stored preset; the model returns the pattern as a value, so this aliasing is not captured (no caller in the repository edits the result).
- Microphone, `AudioContext`, `getUserMedia`, the DOM (displays, button classes, alerts) and drum synthesis (`createKick`, `createSnare`, `createHihat`) are left out. They are device and page I/O. A drum hit is a `Trigger` value handed to the synthesiser.
- The audio graph built by `initAudio` and the floating-point RMS energy and beat test of app.js's onset loop (`processAudio`, app.js:127-171) are left out. Only the loop's control is modelled: `LoopRun` says when a frame is analysed. As written the loop ends on its first frame and never calls `beatDetected` (third finding below); `BeatDetected(now)` models the method as the corrected loop would call it.
- The callbacks of audioProcessor.js are left out: `setCallbacks` (lines 32-36), the visualisation callback (lines 189-191) and the energy callback (lines 250-251) are page effects. `Analyze`'s `beat` result stands for the call to the beat callback (lines 228-230).
- The RMS energy of audioProcessor.js (lines 196-202) is left out for the same reason. `Analyze` takes the frame energy as a parameter.
- `fixBPM` (app.js:233-243) is left out. It parses the tempo back out of display text.
- `setDefaultCustomPattern` (app.js:79-96) sets a grid step only when its button is found on the page. The model takes the two cases, all buttons found or none, as the constructor flag `gridButtonsPresent`.
- Timers are left out: `setInterval`, `clearInterval`, `requestAnimationFrame` and `setTimeout`. One scheduling pass is one `ScheduleBeats` call, and one animation frame is one `Analyze` call. Closing the audio contexts is not modelled.
- Interleavings are not modelled beyond the order `toggleListening` imposes by awaiting `initAudio` (see `LoopStepAsWritten`). Examples are a click arriving while that `await` is pending, or a second `startListening` that starts a second analysis loop.
- All arithmetic is on exact reals and unbounded integers. JavaScript doubles can differ in the last bits, for example in `0.7 - i * 0.1`, `60 / bpm` or the accumulated scheduling clock. `NaN` and `Infinity` appear only where they decide a branch, in the two findings.
- BpmDetectorApp.BpmDetector.ScheduleBeats: requires a positive `fixedBPM`. After listening starts, `fixedBPM` is `null`. JavaScript would then schedule with `60 / null = Infinity` and produce `NaN` sub-beat times. The model does not cover that case.
- BpmDetectorApp.BpmDetector.ToggleRhythm: starting requires a positive `fixedBPM`, for the same reason.
- BpmDetectorApp.BpmDetector.SetPattern: the style is one of the four the buttons send. Any other string would make `createBeats` play nothing.
- RhythmStats.IqrBpm: when the trimmed intervals do not have a positive sum, the model returns no tempo. JavaScript would compute `Infinity` or a negative tempo, which the [40, 240] gate then rejects. The class invariant rules this case out anyway, because every recorded interval exceeds 200 ms.
- RhythmPatternLibrary.RhythmPatterns.SetCustomPattern: requires an index in [0, 16). JavaScript would grow a sparse array or add a named property. An instrument naming another property of the entry (`name`, `description`, inherited members) makes JavaScript throw. The model treats it like any unknown name and changes nothing.
- RhythmPatternLibrary.RhythmPatterns.GetPattern: for a name of an inherited property (`constructor`, `toString`), JavaScript would throw. The model falls back to the custom pattern for every name outside the table.
- Step values: a step value is a number or a boolean. Other JavaScript values (strings, objects, `NaN`) are not modelled.
- RhythmPatternLibrary.RandomBeats: builds the 16-step row as a sequence value updated step by step rather than a fresh JavaScript array. The array never escapes the function before it is returned, so nothing aliases it.
- `getRandomBeats` takes a `total` argument that it never uses. The model does not include it.

## Findings

| source | as written | input that shows it | evidently intended | confidence | as-written member | corrected member |
|---|---|---|---|---|---|---|
| app.js:2-58, 254-260 | The constructor never assigns `tapTimes` or `lastTapTime`. On a tap, `now - undefined > 2000` is false, so the history is not reset, and `undefined.push(now)` throws. | The first tap of a session, at any time. | The tap history starts empty and the last tap time starts at 0, so tap tempo works. | high; not executed | BpmDetectorApp.UninitialisedTapsAlwaysThrow | BpmDetectorApp.BpmDetector.HandleTap |
| audioProcessor.js:11-29, 220-225 | `lastPeakTime` is never assigned. `currentTime - undefined` is `NaN`, so the 200 ms test always fails. No peak is ever a beat, no interval is recorded and `calculateBPM` always returns null. | Any sequence of loud frames after `startListening`. | `lastPeakTime` starts at 0 like `lastBeatTime`, so the first loud frame is a beat. | high; not executed | AudioProcessorModel.UninitialisedNeverDetects | AudioProcessorModel.FirstLoudFrameIsABeat |
| app.js:216-221 | `toggleListening` awaits `initAudio` before it sets `isListening`. Inside `initAudio`, `processAudio` calls `analyze` at once, which returns at app.js:136 without requesting a frame. Later starts skip `initAudio` because the audio context exists (app.js:218). So the onset loop never analyses a frame and `beatDetected` is never called. | Click Start Listening, then any animation frames and clicks. | Each start leaves the onset loop running, so every frame while listening is analysed. | high; not executed | BpmDetectorApp.OnsetLoopNeverAnalyses | BpmDetectorApp.OnsetLoopFollowsListening |
