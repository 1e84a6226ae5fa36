# Blob Orchestra — a verified model of the step sequencer

The Blob Orchestra (`vibe_coding/bob/script.js`) is a browser toy with four
singing "blobs": bass, snare, melody and drone. A look-ahead scheduler reads
the audio clock and numbers the sixteenth notes of a 16-step loop. It queues
every note due within the next 0.1 s and hands each one to the active voices.
Each voice decides from the step number whether to sound. The drone is
different: it is a long-lived sound graph that `toggleBlob` starts and stops.
After a stop, a deferred cleanup tears the graph down once it has faded.

The Dafny project models that core in four modules:

- `Voices` (`voices.dfy`): the four firing predicates, the melody's
  pattern-to-scale lookup, and what `play(time, step)` emits. A voice's
  callback is a `Beat`; the sound it schedules is one opaque `Tone`.
- `Timing` (`timing.dfy`): the sixteenth-note length `0.25 * 60 / tempo`,
  the step counter that wraps at 16, and what repeated advancing does to
  each.
- `Blobs` (`blobs.dfy`): class `Blob`, which is `BlobInstrument` with its
  `active` flag plus the drone's `start`, `stop` and cleanup lifecycle.
  - The four audio nodes are reduced to presence flags.
  - The fade target is a number.
  - Each cleanup timer armed by `stop` is counted in `pendingCleanups`; the
    timer's callback is the method `Cleanup(gain)`.
- `Orchestra` (`orchestra.dfy`): class `BlobOrchestra`, holding `nextNote`,
  `scheduleNote`, `scheduler`, `initAudio` and `toggleBlob`. It also holds
  the pure specification of a scheduler pass:
  - `Dispatch` and `DispatchAll`: which voices get called;
  - `Slots` and `IsWindow`: which notes a pass dispatches;
  - the `onBeat` delay.

Time is an exact `real` number of seconds. The audio clock enters as the
`currentTime` parameter of `Scheduler` and `InitAudio`. The drone's measured
gain enters as the `gain` parameter of `Cleanup`. Re-arming the scheduler's
timer is recorded as `timerArmed := true`; the next pass is simply the next
call of `Scheduler`.

Where the code defeats its own stated intent: the drone's `play` means to
pulse its callback on step 0 of every loop; its comment says to "trigger
visual pulse on beat 0" (script.js:386-389). But `scheduleNote` never calls
`play` on a `DroneBlob` (script.js:165). The model keeps the code's
behaviour. `Dispatch` never produces a drone call, and the lemma
`DroneNeverPulses` and the method `DroneSoundsButIsNeverScheduled` show
that the pulse is unreachable.

## Model

| member | source | states |
|---|---|---|
| Voices.Fires | vibe_coding/bob/script.js:192-390 | The step test of each voice's `play`: `step % 4 == 0`, `step % 8 == 4`, `step % 2 == 0` and `step % 16 == 0` (script.js:195, 235, 284, 387). This is the definition; its properties are proved in `FiresWithinLoop`, `FiresDependsOnLoopPosition`, `FiresPeriodic` and `FiringGridNests`. |
| Voices.FiresWithinLoop | vibe_coding/bob/script.js:192-390 | Within one loop, the bass, snare, melody and drone predicates hold exactly on {0,4,8,12}, {4,12}, the even steps and {0}. |
| Voices.FiresDependsOnLoopPosition | vibe_coding/bob/script.js:192-390 | For any step number, a voice fires exactly when its loop position `step % 16` is in its table. |
| Voices.FiresPeriodic | vibe_coding/bob/script.js:192-390 | Step `s + 16` makes the same firing decision as step `s` for every voice. |
| Voices.FiringGridNests | vibe_coding/bob/script.js:192-390 | Snare and drone steps are bass steps, bass steps are melody steps, and snare and drone never share a step. |
| Voices.PatternIndexesScale | vibe_coding/bob/script.js:277-279 | The pattern has 16 entries and each one indexes the 5-note scale. |
| Voices.MelodyPitch | vibe_coding/bob/script.js:288-289 | The melody note is a scale frequency, and it equals `scale[pattern[step % 16]]`: the `% scale.length` never wraps. |
| Voices.MelodyPeriodic | vibe_coding/bob/script.js:288-289 | Steps `s` and `s + 16` play the same frequency. |
| Voices.Play | vibe_coding/bob/script.js:192-390 | A voice emits nothing exactly when its predicate fails. Otherwise its callback comes first, at the event time. A non-drone voice then schedules one sound that starts at that time and stops later; the melody's sound has the pitch `MelodyPitch(step)`. The drone only calls its callback. |
| Voices.PlayBeatsOnce | vibe_coding/bob/script.js:192-390 | A voice calls its callback exactly once, with the event time, when it fires, and never otherwise. |
| Timing.SixteenthNote | vibe_coding/bob/script.js:155-156 | The advance of `nextNote`, `0.25 * (60 / tempo)`, is positive for every positive tempo. Its other properties are proved in `FourSixteenthsMakeABeat` and `SixteenthNoteAt120`. |
| Timing.FourSixteenthsMakeABeat | vibe_coding/bob/script.js:155-156 | Four advances of `nextNoteTime` add up to one beat of `60 / tempo` seconds. |
| Timing.SixteenthNoteAt120 | vibe_coding/bob/script.js:6 | At the orchestra's tempo 120 a step is 0.125 s. |
| Timing.NextStep | vibe_coding/bob/script.js:157-160 | The counter update (increment, and reset to 0 on reaching 16) stays below 16. Its closed form is proved in `NextStepIsSuccessor` and `StepAfterIsModular`. |
| Timing.NextStepIsSuccessor | vibe_coding/bob/script.js:157-160 | The step update is `(step + 1) % 16`, so the counter stays in `[0, 16)`. |
| Timing.StepAfterIsModular | vibe_coding/bob/script.js:157-160 | `n` step updates move the counter to `(step + n) % 16`. |
| Timing.StepCycle | vibe_coding/bob/script.js:157-160 | 16 step updates return the counter to its start, and no smaller positive number of updates does. |
| Timing.TimeAfterIsLinear | vibe_coding/bob/script.js:154-156 | `n` time updates add exactly `n` sixteenth notes. |
| Timing.TimeAfterIncreasing | vibe_coding/bob/script.js:154-156 | The timestamp strictly increases with every update. |
| Timing.LoopDuration | vibe_coding/bob/script.js:154-156 | One loop of 16 updates lasts `240 / tempo` seconds, 2.0 s at tempo 120. |
| Blobs.Blob.constructor | vibe_coding/bob/script.js:182-187 | A new instrument is inactive and has no sound graph, no stop in progress and no pending cleanup. |
| Blobs.Blob.Start | vibe_coding/bob/script.js:326-362 | `start` clears the stopping flag. It builds the graph exactly when it was absent, and it fades in to 0.15; the active flag and the armed timers are untouched. |
| Blobs.Blob.Stop | vibe_coding/bob/script.js:364-372 | `stop` changes nothing without a gain node. Otherwise it marks the drone stopping, fades out to 0 and arms one cleanup timer; the graph stays. |
| Blobs.Blob.Cleanup | vibe_coding/bob/script.js:372-381 | The cleanup callback consumes one timer. It releases all four nodes exactly when the drone is still stopping, has an oscillator and the gain is below 0.01. Otherwise it keeps the graph, and it never touches the stopping flag. |
| Blobs.StartTwiceBuildsOnce | vibe_coding/bob/script.js:326-358 | `start; start` builds the graph on the first call only. |
| Blobs.StopBeforeStartIsNoOp | vibe_coding/bob/script.js:364-365 | `stop` on a drone never started arms no cleanup and leaves it silent. |
| Blobs.RestartBeforeCleanupKeepsSound | vibe_coding/bob/script.js:326-381 | A `start` between `stop` and its cleanup keeps the graph and the sound, whatever gain the cleanup reads. |
| Blobs.StopThenCleanup | vibe_coding/bob/script.js:364-381 | An uncancelled stop's cleanup releases the graph exactly when the gain has fallen below 0.01. |
| Blobs.StaleTimerAfterRestop | vibe_coding/bob/script.js:364-381 | After stop, start, stop, the first timer already sees "stopping" and can release the graph while the second timer is still pending. |
| Orchestra.Dispatch | vibe_coding/bob/script.js:163-168 | The calls one `scheduleNote` makes, voice by voice. This is the definition; its properties are proved in `DispatchReachesActiveVoices`, `DispatchCallsActiveVoices` and `DispatchToSilentVoices`, and `ScheduleNote` is proved equal to it. |
| Orchestra.DispatchAll | vibe_coding/bob/script.js:171-175 | The calls of a whole pass, note by note. This is the definition; its properties are proved in `DispatchAllReaches`, `DispatchAllCallsActiveVoices` and `SilentVoicesGetNoCalls`, and `Scheduler` is proved equal to it. |
| Orchestra.Emitted | vibe_coding/bob/script.js:166 | What the called voices' `play` produce, call by call. This is the definition; its properties are proved in `EmittedByCalledVoices` and `DroneNeverPulses`. |
| Orchestra.DispatchCallsActiveVoices | vibe_coding/bob/script.js:163-168 | Every call `scheduleNote` makes has the note's step and time and goes to an active voice that is not the drone; a note makes no more calls than there are voices. |
| Orchestra.DispatchReachesActiveVoices | vibe_coding/bob/script.js:163-168 | A voice is called on a note exactly when it is active and not the drone. |
| Orchestra.DispatchToSilentVoices | vibe_coding/bob/script.js:163-168 | When no voice is active, a note calls nobody. |
| Orchestra.DispatchAllReaches | vibe_coding/bob/script.js:171-175 | Over a pass, a voice is called for a note exactly when the note was dispatched and the voice is active and not the drone. |
| Orchestra.DispatchAllCallsActiveVoices | vibe_coding/bob/script.js:171-175 | Every call of a pass is for a dispatched note and an active, non-drone voice. |
| Orchestra.SilentVoicesGetNoCalls | vibe_coding/bob/script.js:171-175 | With every voice inactive, a pass calls no voice at all. |
| Orchestra.EmittedByCalledVoices | vibe_coding/bob/script.js:163-168 | Only voices that were called emit callbacks or sounds, and each effect has the time of a call to its voice. |
| Orchestra.DroneNeverPulses | vibe_coding/bob/script.js:163-168 | Nothing a pass triggers belongs to the drone, so its step-0 pulse never happens. |
| Orchestra.WindowNotes | vibe_coding/bob/script.js:171-175 | Note `j` of a pass is `j` updates on from the starting step and time, and is due before the look-ahead limit. |
| Orchestra.WindowClosedForm | vibe_coding/bob/script.js:171-175 | Note `j` has step `(step0 + j) % 16` and time `t0 + j * 15 / tempo`. |
| Orchestra.WindowIsConsecutive | vibe_coding/bob/script.js:171-175 | Consecutive notes are one sixteenth note and one step (modulo 16) apart. |
| Orchestra.WindowIsIncreasing | vibe_coding/bob/script.js:171-175 | The dispatched times strictly increase and lie in `[t0, currentTime + scheduleAheadTime)`. |
| Orchestra.WindowHoldsExactlyTheDueSlots | vibe_coding/bob/script.js:172 | The `n`-th slot after the start is dispatched exactly when it is due before the limit. |
| Orchestra.WindowIsUnique | vibe_coding/bob/script.js:171-175 | The start and the limit determine the dispatched notes: every due note and none later. |
| Orchestra.VisualDelay | vibe_coding/bob/script.js:89 | The `onBeat` delay is never negative. Waiting it from `now` reaches the event time, or `now` itself for a past event, and it is 0 when the event is now. |
| Orchestra.NewVoices | vibe_coding/bob/script.js:71-76 | The four new voices follow the roster bass, snare, melody, drone; each is fresh and inactive, with no graph, no stop in progress, no cleanup timer and a fade target of 0. |
| Orchestra.BlobOrchestra.constructor | vibe_coding/bob/script.js:2-13 | Before audio starts there is no voice, nothing plays, no timer is armed, and the clock and counter are 0. |
| Orchestra.BlobOrchestra.NextNote | vibe_coding/bob/script.js:154-161 | `nextNote` adds one sixteenth note to the timestamp and moves the counter one step around the loop. It changes only those two fields. |
| Orchestra.BlobOrchestra.ScheduleNote | vibe_coding/bob/script.js:163-168 | The walk over the voices makes exactly the calls `Dispatch` describes, in voice order. |
| Orchestra.BlobOrchestra.Scheduler | vibe_coding/bob/script.js:171-177 | A pass dispatches exactly the window of notes due before `currentTime + scheduleAheadTime`, and makes exactly the calls `DispatchAll` gives for them. Afterwards the clock is at or past the limit, the counter is as many steps on as notes were dispatched, and the timer is armed. |
| Orchestra.BlobOrchestra.InitAudio | vibe_coding/bob/script.js:58-80 | A second call changes nothing. The first starts the clock at `currentTime` and creates the four voices inactive, with no graph, no stop in progress and no cleanup timer. Its scheduler pass dispatches the window from step 0 and calls no voice. |
| Orchestra.BlobOrchestra.ToggleBlob | vibe_coding/bob/script.js:131-152 | Before audio starts nothing changes. Afterwards the voice's flag flips and every other voice is unchanged. A non-drone voice keeps every other field. The drone is started when switched on and stopped when switched off. |
| Orchestra.DroneSoundsButIsNeverScheduled | vibe_coding/bob/script.js:163-168 | Once switched on, the drone sounds, yet the next pass makes no drone call. |
| Orchestra.DroneToggledOffArmsOneCleanup | vibe_coding/bob/script.js:131-152 | After start-up, switching the drone on and then off leaves it stopping with exactly one cleanup timer armed. |
| Orchestra.SecondInitAudioChangesNothing | vibe_coding/bob/script.js:58-59 | A second `initAudio` schedules nothing and leaves the clock where the first pass put it. |

## Left out

- IEEE floating point: time is exact `real`. At tempo 120 only the step length 0.125 s is exact in the source. The source adds it again and again to an audio-clock reading (script.js:156), so the accumulated note times get rounded. The look-ahead 0.1 s (script.js:8) is not exact either, so the limit `currentTime + 0.1` (script.js:172) is rounded too. A note within rounding distance of the limit may therefore be sent out in a different pass than the model says.
- Orchestra.BlobOrchestra.InitAudio: the creation of the `AudioContext` and the master gain node (volume 0.5) is reduced to the flag `audioReady`.
- Voices.Play: oscillator types, frequency and gain ramps, filters and node connections are not modelled. Each sound is one `Tone` with a start, a stop and a nominal pitch.
- Voices.Play: the snare's noise burst, which runs from the same time for the same 0.1 s as its tone, is not a separate effect.
- Voices.Play: the bass pitch is its starting frequency of 150 Hz; the fall to 40 Hz is not modelled.
- Blobs.Blob.Start: the drone's oscillator, modulator and filter settings are not modelled, nor is `cancelScheduledValues`. The fade is reduced to its target level.
- Blobs.Blob.Cleanup: `osc.stop()` and `lfo.stop()` are not modelled as effects. The gain's decay curve is not modelled either; the value read when the callback runs is the parameter `gain`.
- Orchestra.BlobOrchestra.Scheduler: the 25 ms `setTimeout` cadence and the wall clock are not modelled. The re-arm is the flag `timerArmed`, and the next pass is the next call.
- Orchestra.BlobOrchestra.Scheduler: the audio clock is read once per pass, and the model assumes it does not move during the pass. The source reads `audioCtx.currentTime` again at every test of the loop (script.js:172). `IsWindow` and `WindowIsUnique` describe the window for that single, fixed limit.
- Orchestra.BlobOrchestra.InitAudio: two clock reads are treated as one value. The source reads the clock once to set `nextNoteTime` (script.js:63) and again inside the first `scheduler()` pass (script.js:79, 172); the model uses the one parameter `currentTime` for both.
- Orchestra.VisualDelay: the delayed visual trigger itself is DOM work and is not modelled. That covers the skip for an inactive blob, the mouth animation and the particles.
- Orchestra.BlobOrchestra.ToggleBlob: the CSS class changes and the pupil reset are DOM work and are not modelled.
- `DroneBlob.lastBeatTime` is written once and never read, so it is not modelled.
- `isPlaying` is set but never read. It is kept as a field with no behaviour attached.
- The mouse eye-tracking (script.js:36-55), `spawnParticles` and `createNoiseBuffer` are not modelled. They are trigonometry on DOM coordinates, `Math.random` and DOM element creation.
- `initUI` (script.js:16-33) is not modelled. Its event wiring calls `initAudio` from the start button and `toggleBlob(index)` from a blob's click, Enter or Space; the model makes these calls directly. `ToggleBlob` requires `index < 4` because the page has exactly four `.blob` elements, one per voice.
- `main.js` is not part of this model. It is page and menu glue: class toggles, an audio element, scroll tracking and a back-to-top button.
