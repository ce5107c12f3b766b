# CXRServiceDemo core, modelled in Dafny

This project models the state logic of four screens of the CXRServiceDemo Android app for AR glasses.

- **Demo selector.** Four buttons sit on a ring. The D-pad moves the highlight and CENTER/ENTER opens the chosen screen.
- **Ambient visualizer.**
  - The activity chooses a rotation sensor, or falls back to gyroscope plus accelerometer fusion.
  - It keeps a first-write-wins orientation baseline.
  - It normalises each audio chunk against a running-peak envelope.
  - The view unwraps yaw and pitch, eases a camera bias at no more than 5°/s, clamps the camera into a world five screens wide, gates the ripple and creates the particle ensemble once.
- **Object labels.**
  - The analyzer passes at most one camera frame every 120 ms.
  - It repacks RGBA rows into a bitmap and runs the detector.
  - The overlay keeps six label slots. A label never moves between slots, so it keeps its text row. Labels not seen for 5 s are freed.
- **Hand tracking.**
  - The hand mode toggles between one and two hands.
  - The analyzer passes at most one frame every 34 ms.
  - The overlay remaps normalised landmarks by the frame rotation and draws one line per connection whose endpoints exist and one dot per landmark.

## How the code is modelled

- **Mutable state.** An Android object whose fields change in place is a Dafny `class` whose methods are proved against pure specification functions. Examples: `LabelOverlayView.Update` against `UpdateSlots`, and `ToBitmap` against `Convert`.
- **Loops and arrays.**
  - The source's loops are `while` loops with invariants: the detection and expiry passes, the button restyling, the particle creation, the audio sum of squares and the row-repacking loop.
  - The fixed buffers are arrays: the slot table, the button styles, the gravity vector and the packed byte buffer.
- **Numbers.**
  - Floating point becomes `real`, and Kotlin's truncating `%` is written out.
  - `sqrt`, `atan2`, `Random`, the sensor-matrix conversions, the detector and the clocks become parameters.
- **Shared conversion code.** `ImageProxy.toBitmap` is the same text in ObjectLabelsActivity and HandTrackingActivity. It is modelled once, in `CameraFrames`, and cited at its ObjectLabelsActivity lines.
- **Behaviour of the code worth noting:**
  - The angle unwrapper's two `if` statements use strict comparisons, so a step of exactly -π or π is kept. The wrapped step lies in the closed range [-π, π] (`AmbientView.WrapStepKeepsBothEnds`). Each `if` corrects by one turn at most, so only raw steps smaller than 3π are brought into that range.
  - `startSensors` runs on every resume. It re-chooses the sensor and the mode, and touches nothing else. The baseline, the unwrap state, the camera bias, the fusion state and `runningPeak` carry over from before the pause. `AmbientActivity.AmbientVisualizerActivity.StartSensors` states that they are kept.
  - An exception inside `toBitmap` escapes the analyzer before any `close()`. The exceptions are:
    - `createBitmap` with a non-positive size;
    - a row copy outside the source or past the packed buffer;
    - a fast-path buffer smaller than the bitmap.

    On that path the frame is not closed. On every other path it is closed exactly once. The frame is an `ImageProxy` object that counts its `close()` calls, and `RunDetection` and `RunHandTracking` state the count.

## Model

| member | source | states |
|---|---|---|
| KotlinMath.Rem | app/src/main/java/com/example/cxrservicedemo/DemoSelectorActivity.kt:59 | Kotlin `%`: the remainder has the dividend's sign, lies strictly within one divisor of zero and is congruent to the mathematical remainder |
| KotlinMath.Clamp | app/src/main/java/com/example/cxrservicedemo/AmbientVisualizerView.kt:124-125 | `coerceIn`: the result lies in [lo, hi], equals the value inside the range, and is lo below it and hi above it |
| LabelOverlay.TopIndex | app/src/main/java/com/example/cxrservicedemo/ObjectOverlayLabelsView.kt:48 | `maxByOrNull` by score picks a category no other beats, and the first such one |
| LabelOverlay.DetectedLabel | app/src/main/java/com/example/cxrservicedemo/ObjectOverlayLabelsView.kt:48-49 | a detection has no label exactly when it has no category; otherwise its label is the name of a top-scoring category |
| LabelOverlay.IndexOfLabel | app/src/main/java/com/example/cxrservicedemo/ObjectOverlayLabelsView.kt:41-43 | `findSlotFor` returns the first slot holding the label, and none exactly when no slot holds it |
| LabelOverlay.IndexOfFree | app/src/main/java/com/example/cxrservicedemo/ObjectOverlayLabelsView.kt:57 | returns the first free slot, and none exactly when every slot is taken |
| LabelOverlay.Assign | app/src/main/java/com/example/cxrservicedemo/ObjectOverlayLabelsView.kt:47-64 | a label already present is refreshed (time and pinyin) in its slot; a new label takes the lowest free slot; with no free slot, or no category, the table is unchanged |
| LabelOverlay.Expire | app/src/main/java/com/example/cxrservicedemo/ObjectOverlayLabelsView.kt:66-74 | each slot is freed exactly when it is occupied and older than the cutoff; afterwards no occupied slot is older than the cutoff |
| LabelOverlay.UpdateSlots | app/src/main/java/com/example/cxrservicedemo/ObjectOverlayLabelsView.kt:31-77 | `update` keeps the number of slots, and afterwards no occupied slot is older than the 5 s expiry window |
| LabelOverlay.AssignKeepsInvariants | app/src/main/java/com/example/cxrservicedemo/ObjectOverlayLabelsView.kt:47-64 | one detection keeps labels unique and free slots blank, and leaves every occupied slot's label in place |
| LabelOverlay.AssignAllKeepsInvariants | app/src/main/java/com/example/cxrservicedemo/ObjectOverlayLabelsView.kt:47-64 | the same for the whole list of detections |
| LabelOverlay.ExpireKeepsInvariants | app/src/main/java/com/example/cxrservicedemo/ObjectOverlayLabelsView.kt:66-74 | expiry keeps both invariants and only ever empties a slot |
| LabelOverlay.UpdateKeepsInvariants | app/src/main/java/com/example/cxrservicedemo/ObjectOverlayLabelsView.kt:32-77 | `update` keeps six slots, unique labels and blank free slots; an occupied slot keeps its label or is emptied |
| LabelOverlay.LabelKeepsItsSlot | app/src/main/java/com/example/cxrservicedemo/ObjectOverlayLabelsView.kt:46-64 | nothing is shuffled: after `update` a label that was in slot i appears in no other slot |
| LabelOverlay.PlacedStaysPlaced | app/src/main/java/com/example/cxrservicedemo/ObjectOverlayLabelsView.kt:51-62 | a detection never changes the label of an occupied slot |
| LabelOverlay.AssignTouchesOnlyItsLabel | app/src/main/java/com/example/cxrservicedemo/ObjectOverlayLabelsView.kt:51-62 | a detection changes only the slot that afterwards holds the detection's own label |
| LabelOverlay.DetectedSlotsAreFresh | app/src/main/java/com/example/cxrservicedemo/ObjectOverlayLabelsView.kt:47-64 | after the detection pass, every slot holding a label detected in it carries the call's timestamp, and every other slot is as before |
| LabelOverlay.DetectedLabelsSurviveExpiry | app/src/main/java/com/example/cxrservicedemo/ObjectOverlayLabelsView.kt:47-74 | a slot holding a label detected in this call survives this call's expiry |
| LabelOverlay.DetectedLabelsPlacedWhenRoom | app/src/main/java/com/example/cxrservicedemo/ObjectOverlayLabelsView.kt:56-62 | if any slot is still free after the detection pass, every detected label found a slot |
| LabelOverlay.RowText | app/src/main/java/com/example/cxrservicedemo/ObjectOverlayLabelsView.kt:91-94 | a row has text exactly when its slot is occupied, and the text starts with the label |
| LabelOverlay.Rows | app/src/main/java/com/example/cxrservicedemo/ObjectOverlayLabelsView.kt:89-99 | row i is drawn from slot i and there is one row per slot |
| LabelOverlay.LabelOverlayView.constructor | app/src/main/java/com/example/cxrservicedemo/ObjectOverlayLabelsView.kt:29 | the table starts as six blank slots |
| LabelOverlay.LabelOverlayView.Update | app/src/main/java/com/example/cxrservicedemo/ObjectOverlayLabelsView.kt:32-77 | the table is changed in place to `UpdateSlots` of the old table and keeps its invariants |
| LabelOverlay.LabelOverlayView.AssignDetections | app/src/main/java/com/example/cxrservicedemo/ObjectOverlayLabelsView.kt:47-64 | the detection loop leaves the table equal to `AssignAll` of the old table |
| LabelOverlay.LabelOverlayView.AssignDetection | app/src/main/java/com/example/cxrservicedemo/ObjectOverlayLabelsView.kt:48-63 | one iteration leaves the table equal to `Assign` of the old table |
| LabelOverlay.LabelOverlayView.ExpireStale | app/src/main/java/com/example/cxrservicedemo/ObjectOverlayLabelsView.kt:67-74 | the expiry loop leaves the table equal to `Expire` of the old table |
| LabelOverlay.LabelOverlayView.SetStatus | app/src/main/java/com/example/cxrservicedemo/ObjectOverlayLabelsView.kt:106-109 | sets the status text |
| LabelOverlay.LabelOverlayView.ShownRows | app/src/main/java/com/example/cxrservicedemo/ObjectOverlayLabelsView.kt:89-99 | a redraw shows six rows |
| HandOverlay.NormalizeRotation | app/src/main/java/com/example/cxrservicedemo/HandOverlayView.kt:89 | `(rotation % 360 + 360) % 360` lies in [0, 360) and equals the mathematical remainder, for negative rotations too |
| HandOverlay.Rotated | app/src/main/java/com/example/cxrservicedemo/HandOverlayView.kt:88-95 | every remap keeps the point's distance from the centre of the unit square: it is a rotation about that centre |
| HandOverlay.RotatedIsQuarterTurns | app/src/main/java/com/example/cxrservicedemo/HandOverlayView.kt:88-95 | for a multiple of 90° the remap is that many quarter turns of the unit square (an independent reference); any other angle leaves the point alone |
| HandOverlay.RotatedCompose | app/src/main/java/com/example/cxrservicedemo/HandOverlayView.kt:88-95 | remapping by a and then by b (multiples of 90°) is remapping by a + b |
| HandOverlay.HalfTurnTwiceIsIdentity | app/src/main/java/com/example/cxrservicedemo/HandOverlayView.kt:91 | two 180° remaps give the point back |
| HandOverlay.QuarterThenThreeQuartersIsIdentity | app/src/main/java/com/example/cxrservicedemo/HandOverlayView.kt:90-92 | a 90° remap undone by a 270° remap gives the point back |
| HandOverlay.RotatedCongruent | app/src/main/java/com/example/cxrservicedemo/HandOverlayView.kt:89 | rotations equal modulo 360 (such as -90 and 270) remap identically |
| HandOverlay.RotatedStaysInUnitSquare | app/src/main/java/com/example/cxrservicedemo/HandOverlayView.kt:88-95 | every remap keeps a normalised point inside the unit square |
| HandOverlay.GetOrNull | app/src/main/java/com/example/cxrservicedemo/HandOverlayView.kt:75-76 | `getOrNull` yields the landmark exactly when the index is in range |
| HandOverlay.ConnectionLine | app/src/main/java/com/example/cxrservicedemo/HandOverlayView.kt:68-86 | a connection draws a line exactly when both endpoints exist |
| HandOverlay.ConnectionLines | app/src/main/java/com/example/cxrservicedemo/HandOverlayView.kt:57-59 | one line per connection whose endpoints both exist (`InRangeCount` of them), none for the others; all lines when all endpoints exist, none when none does |
| HandOverlay.ConnectionLinesAppend | app/src/main/java/com/example/cxrservicedemo/HandOverlayView.kt:57-59 | each connection contributes its line independently of the others and in order: the drawing of `a + b` is that of `a` followed by that of `b` |
| HandOverlay.ConnectionLinesSnoc | app/src/main/java/com/example/cxrservicedemo/HandOverlayView.kt:57-59 | drawing one more connection appends exactly the line `drawConnection` paints for it, or nothing |
| HandOverlay.Dots | app/src/main/java/com/example/cxrservicedemo/HandOverlayView.kt:61-64 | one dot per landmark, in landmark order, each at the landmark's remapped and scaled position |
| HandOverlay.DrawPlan | app/src/main/java/com/example/cxrservicedemo/HandOverlayView.kt:49-50 | nothing is drawn without hands or with a zero source dimension |
| HandOverlay.DrawPlanDotsPerLandmark | app/src/main/java/com/example/cxrservicedemo/HandOverlayView.kt:55-65 | the drawing holds exactly one dot per landmark of every hand, whatever the connections |
| HandOverlay.HandOverlayView.constructor | app/src/main/java/com/example/cxrservicedemo/HandOverlayView.kt:32-36 | no hands, a 1×1 source and rotation 0 |
| HandOverlay.HandOverlayView.Update | app/src/main/java/com/example/cxrservicedemo/HandOverlayView.kt:38-44 | stores the hands, the source size and the rotation |
| HandOverlay.HandOverlayView.Plan | app/src/main/java/com/example/cxrservicedemo/HandOverlayView.kt:46-66 | a redraw of stored hands paints one dot per stored landmark; with no hands it paints nothing |
| DemoSelector.Moved | app/src/main/java/com/example/cxrservicedemo/DemoSelectorActivity.kt:58-59 | whenever the shifted sum is non-negative, the new index lies on the ring and equals (index + delta) mod 4 |
| DemoSelector.MovedStep | app/src/main/java/com/example/cxrservicedemo/DemoSelectorActivity.kt:59 | one step either way keeps the index on the ring and equals (index + delta) mod 4 |
| DemoSelector.MoveAllIsNetDisplacement | app/src/main/java/com/example/cxrservicedemo/DemoSelectorActivity.kt:58-61 | any series of single steps lands at (start + net displacement) mod 4 |
| DemoSelector.MovedWrapsAround | app/src/main/java/com/example/cxrservicedemo/DemoSelectorActivity.kt:59 | RIGHT on the last button wraps to the first; LEFT on the first wraps to the last |
| DemoSelector.MovesReturnToStart | app/src/main/java/com/example/cxrservicedemo/DemoSelectorActivity.kt:59 | RIGHT then LEFT, and four RIGHTs, both return to the start |
| DemoSelector.LaunchTarget | app/src/main/java/com/example/cxrservicedemo/DemoSelectorActivity.kt:63-70 | a screen is launched exactly for an index on the ring |
| DemoSelector.LaunchTargetMatchesButtons | app/src/main/java/com/example/cxrservicedemo/DemoSelectorActivity.kt:63-70 | CENTER/ENTER opens exactly the screen the highlighted button's click opens; an index off the ring opens nothing |
| DemoSelector.Selector.constructor | app/src/main/java/com/example/cxrservicedemo/DemoSelectorActivity.kt:15-24 | starts on button 0 with only that button highlighted |
| DemoSelector.Selector.UpdateSelection | app/src/main/java/com/example/cxrservicedemo/DemoSelectorActivity.kt:72-91 | afterwards exactly the selected button is highlighted and all others are dimmed |
| DemoSelector.Selector.MoveSelection | app/src/main/java/com/example/cxrservicedemo/DemoSelectorActivity.kt:58-61 | the index becomes the wrapped move, and the highlight follows it |
| DemoSelector.Selector.OnKeyDown | app/src/main/java/com/example/cxrservicedemo/DemoSelectorActivity.kt:40-56 | RIGHT/LEFT move one place, CENTER/ENTER launch the selected screen, and all three are handled; any other key changes nothing and returns the platform's answer |
| AmbientView.WrapStep | app/src/main/java/com/example/cxrservicedemo/AmbientVisualizerView.kt:60-62 | a raw step below 3π in size wraps into [-π, π]; it differs from the raw step by at most one turn and is unchanged inside the range |
| AmbientView.WrapStepKeepsBothEnds | app/src/main/java/com/example/cxrservicedemo/AmbientVisualizerView.kt:61-62 | both -π and π are kept, so the wrapped range is closed at both ends |
| AmbientView.Unwrap | app/src/main/java/com/example/cxrservicedemo/AmbientVisualizerView.kt:56-65 | the first sample only records the raw angle; later samples move the accumulator by at most π |
| AmbientView.UnwrapAllTracksRaw | app/src/main/java/com/example/cxrservicedemo/AmbientVisualizerView.kt:53-75 | after any series of samples the accumulator has moved by the raw change plus a whole number of turns: no turn is lost or invented |
| AmbientView.FrameDt | app/src/main/java/com/example/cxrservicedemo/AmbientVisualizerView.kt:102 | the first frame has dt 0; dt is never negative on a monotonic clock |
| AmbientView.MaxDelta | app/src/main/java/com/example/cxrservicedemo/AmbientVisualizerView.kt:103 | the bias budget is non-negative, and zero on the first frame |
| AmbientView.Ease | app/src/main/java/com/example/cxrservicedemo/AmbientVisualizerView.kt:104-108 | the bias moves by at most the budget, never passes the target, lands on it when within reach and otherwise closes the gap by exactly the budget |
| AmbientView.EaseFramesRateLimited | app/src/main/java/com/example/cxrservicedemo/AmbientVisualizerView.kt:101-110 | over any run of frames the bias drifts by no more than the sum of the budgets (5°/s of elapsed time), whatever the targets |
| AmbientView.CameraCenter | app/src/main/java/com/example/cxrservicedemo/AmbientVisualizerView.kt:114-125 | the camera centre stays half a screen inside the world; at zero display angles it is the world centre |
| AmbientView.ViewportInsideWorld | app/src/main/java/com/example/cxrservicedemo/AmbientVisualizerView.kt:122-129 | the screen's corners map to world points inside the world |
| AmbientView.DrawAmplitude | app/src/main/java/com/example/cxrservicedemo/AmbientVisualizerView.kt:99 | the drawn amplitude is in [0, 1] |
| AmbientView.RippleVisibleIff | app/src/main/java/com/example/cxrservicedemo/AmbientVisualizerView.kt:145 | the ripple is drawn exactly when the raw amplitude exceeds 0.05 |
| AmbientView.MakeParticle | app/src/main/java/com/example/cxrservicedemo/AmbientVisualizerView.kt:158-162 | with in-range random draws, the offset is in [0, 2π) and the radius factor in [0.8, 1.0) |
| AmbientView.AmbientVisualizerView.constructor | app/src/main/java/com/example/cxrservicedemo/AmbientVisualizerView.kt:38-51 | the fields' initial values |
| AmbientView.AmbientVisualizerView.Update | app/src/main/java/com/example/cxrservicedemo/AmbientVisualizerView.kt:53-80 | yaw and pitch are unwrapped per `Unwrap` and published as accumulated; roll and amplitude are stored as given; bias and frame time are untouched |
| AmbientView.AmbientVisualizerView.SetStatusText | app/src/main/java/com/example/cxrservicedemo/AmbientVisualizerView.kt:82-85 | sets the status text |
| AmbientView.AmbientVisualizerView.ToggleStatus | app/src/main/java/com/example/cxrservicedemo/AmbientVisualizerView.kt:87-90 | flips whether the status is shown |
| AmbientView.AmbientVisualizerView.EnsureParticles | app/src/main/java/com/example/cxrservicedemo/AmbientVisualizerView.kt:155-164 | creates exactly 32 particles from the draws when there are none, and otherwise keeps the existing ones |
| AmbientView.AmbientVisualizerView.Frame | app/src/main/java/com/example/cxrservicedemo/AmbientVisualizerView.kt:92-190 | a redraw eases both biases by the frame's budget, places the camera per `CameraCenter`, gates the ripple, keeps the 32 particles and records the frame time; the published angles, roll, amplitude, unwrap state, status text and status visibility are untouched |
| AmbientActivity.ChooseRotationSensor | app/src/main/java/com/example/cxrservicedemo/AmbientVisualizerActivity.kt:201-219 | priority ROT, then GAME_ROT, then GEO_ROT; none exactly when all three are missing; the label matches the choice and is "" for none |
| AmbientActivity.UseFusionFallback | app/src/main/java/com/example/cxrservicedemo/AmbientVisualizerActivity.kt:90 | the fallback is used exactly when no rotation sensor exists but both the accelerometer and the gyroscope do |
| AmbientActivity.ModeSelection | app/src/main/java/com/example/cxrservicedemo/AmbientVisualizerActivity.kt:88-103 | absolute mode exactly when any rotation sensor exists; fallback exactly when none exists but accelerometer and gyroscope both do; otherwise unavailable |
| AmbientActivity.PeakStep | app/src/main/java/com/example/cxrservicedemo/AmbientVisualizerActivity.kt:149 | the envelope is at least the RMS, rises instantly to a louder RMS, decays strictly below the old peak otherwise, and by exactly 1% in silence |
| AmbientActivity.Normalized | app/src/main/java/com/example/cxrservicedemo/AmbientVisualizerActivity.kt:150-151 | the level is in [0, 1], zero exactly for a silent chunk |
| AmbientActivity.SilenceDecaysGeometrically | app/src/main/java/com/example/cxrservicedemo/AmbientVisualizerActivity.kt:149 | after n silent chunks the envelope is 0.99^n times its value |
| AmbientActivity.SumOfSquaresZero | app/src/main/java/com/example/cxrservicedemo/AmbientVisualizerActivity.kt:142-146 | a chunk's energy is zero exactly when every sample is zero |
| AmbientActivity.SumSquares | app/src/main/java/com/example/cxrservicedemo/AmbientVisualizerActivity.kt:142-146 | the loop computes the sum of squares of the first `read` samples |
| AmbientActivity.Blend | app/src/main/java/com/example/cxrservicedemo/AmbientVisualizerActivity.kt:229-230 | the low-pass and complementary filters produce a value between their two inputs |
| AmbientActivity.Integrated | app/src/main/java/com/example/cxrservicedemo/AmbientVisualizerActivity.kt:300-307 | the first gyro event leaves the angle as it is; a later event moves it in the direction of the rate on a forward clock |
| AmbientActivity.GyroYawStep | app/src/main/java/com/example/cxrservicedemo/AmbientVisualizerActivity.kt:300-307 | the first gyro event only records its timestamp; every event moves the clock to its own timestamp |
| AmbientActivity.ConstantRateIntegration | app/src/main/java/com/example/cxrservicedemo/AmbientVisualizerActivity.kt:298-309 | at a constant rate, fallback yaw grows by rate × elapsed time, however the events are spaced |
| AmbientActivity.AmbientVisualizerActivity.constructor | app/src/main/java/com/example/cxrservicedemo/AmbientVisualizerActivity.kt:33-61 | initial fields, the chosen sensor and fallback flag, peak 400 and the ready status |
| AmbientActivity.AmbientVisualizerActivity.StartSensors | app/src/main/java/com/example/cxrservicedemo/AmbientVisualizerActivity.kt:88-104 | re-chooses the sensor and the mode and sets the matching status (the fallback relabels as GYRO+ACC); the baseline, current orientation, fusion state (yaw, pitch, roll, gravity, gyro clock) and audio state are kept |
| AmbientActivity.AmbientVisualizerActivity.PushState | app/src/main/java/com/example/cxrservicedemo/AmbientVisualizerActivity.kt:169-194 | with a full orientation it publishes it relative to the baseline, capturing the baseline only if unset; otherwise zero angles and "waiting for sensors" |
| AmbientActivity.AmbientVisualizerActivity.OnRotationSample | app/src/main/java/com/example/cxrservicedemo/AmbientVisualizerActivity.kt:260-288 | pitch is negated; the first sample becomes the baseline (published as zeros); later ones are published relative to it |
| AmbientActivity.AmbientVisualizerActivity.FuseAndPush | app/src/main/java/com/example/cxrservicedemo/AmbientVisualizerActivity.kt:221-241 | nothing before the first accelerometer sample; then `FilterRan`: pitch and roll are blended 0.98/0.02 with the tilt of the current gravity, yaw is kept, the fused orientation becomes current and is published relative to the baseline |
| AmbientActivity.AmbientVisualizerActivity.OnAccelerometer | app/src/main/java/com/example/cxrservicedemo/AmbientVisualizerActivity.kt:289-297 | ignored outside the fallback; otherwise gravity is low-pass filtered in place (0.9), marked present, and the filter runs on the new gravity (`FilterRan` from the old fused pitch and roll), publishing the result |
| AmbientActivity.AmbientVisualizerActivity.OnGyroscope | app/src/main/java/com/example/cxrservicedemo/AmbientVisualizerActivity.kt:298-309 | ignored outside the fallback; otherwise yaw is integrated per `GyroYawStep`, and pitch and roll by x and y rate × elapsed time (`Integrated`; the first event only sets the clock); with gravity the filter then runs on the integrated pitch and roll, without it they are the new state and nothing is published |
| AmbientActivity.AmbientVisualizerActivity.OnAudioChunk | app/src/main/java/com/example/cxrservicedemo/AmbientVisualizerActivity.kt:140-153 | a read of no samples changes nothing; otherwise the envelope and the level follow `PeakStep` and `Normalized` of the RMS, and `pushState` publishes the new level with the current orientation relative to the baseline (a Readout status), or with zero angles and the waiting status when there is no orientation yet |
| CameraFrames.Packed | app/src/main/java/com/example/cxrservicedemo/ObjectLabelsActivity.kt:170-173 | n copied rows occupy exactly n × rowLen bytes |
| CameraFrames.PackedRowContent | app/src/main/java/com/example/cxrservicedemo/ObjectLabelsActivity.kt:170-173 | byte k of packed row y is byte y × rowStride + k of the source |
| CameraFrames.PackedWithoutPadding | app/src/main/java/com/example/cxrservicedemo/ObjectLabelsActivity.kt:170-173 | with no row padding the packed rows are just the front of the source |
| CameraFrames.RowsFitWithoutPadding | app/src/main/java/com/example/cxrservicedemo/ObjectLabelsActivity.kt:170-173 | with no padding, every row copy succeeds exactly when the source holds all rows |
| CameraFrames.FastCopy | app/src/main/java/com/example/cxrservicedemo/ObjectLabelsActivity.kt:164-165 | the fast path succeeds exactly when the buffer holds width × height × 4 bytes, and copies those |
| CameraFrames.Repacked | app/src/main/java/com/example/cxrservicedemo/ObjectLabelsActivity.kt:166-176 | the slow path succeeds exactly when every row copy fits, and yields a width × height × 4 byte bitmap |
| CameraFrames.Convert | app/src/main/java/com/example/cxrservicedemo/ObjectLabelsActivity.kt:154-178 | null exactly for a non-RGBA_8888 format or no plane; a non-positive size throws; a bitmap has the frame's size and 4 bytes per pixel |
| CameraFrames.FastPathIsRepack | app/src/main/java/com/example/cxrservicedemo/ObjectLabelsActivity.kt:164-176 | on an unpadded plane, the fast path gives exactly what the row-by-row repack would |
| CameraFrames.RepackedLayout | app/src/main/java/com/example/cxrservicedemo/ObjectLabelsActivity.kt:169-175 | a repacked bitmap is the packed rows followed by zero padding |
| CameraFrames.RepackedRowContent | app/src/main/java/com/example/cxrservicedemo/ObjectLabelsActivity.kt:170-173 | byte k of packed row y (rows of width × pixelStride bytes; width × 4 for RGBA_8888) is byte y × rowStride + k of the plane |
| CameraFrames.RepackedPadding | app/src/main/java/com/example/cxrservicedemo/ObjectLabelsActivity.kt:169 | bytes after the last copied row stay zero |
| CameraFrames.PutRow | app/src/main/java/com/example/cxrservicedemo/ObjectLabelsActivity.kt:172 | `put` writes one row at the current position and nothing else |
| CameraFrames.RepackRows | app/src/main/java/com/example/cxrservicedemo/ObjectLabelsActivity.kt:167-175 | the copy loop succeeds exactly when every row fits, and then yields the packed rows plus zero padding |
| CameraFrames.ToBitmap | app/src/main/java/com/example/cxrservicedemo/ObjectLabelsActivity.kt:154-178 | the imperative conversion returns exactly `Convert` of the frame |
| CameraFrames.ImageProxy.Close | app/src/main/java/com/example/cxrservicedemo/ObjectLabelsActivity.kt:150 | each `close()` adds exactly one to the frame's close count |
| CameraFrames.Throttled | app/src/main/java/com/example/cxrservicedemo/ObjectLabelsActivity.kt:123-128 | admitted frames are positions among the arrivals, and the throttle's remembered time is that of the last admitted frame (the start time until one is admitted) |
| CameraFrames.ThrottleSpacing | app/src/main/java/com/example/cxrservicedemo/ObjectLabelsActivity.kt:123-128 | admitted frames keep arrival order; the first is at least the gap after the start and consecutive ones are at least the gap apart |
| CameraFrames.ThrottleAdmitsExactly | app/src/main/java/com/example/cxrservicedemo/ObjectLabelsActivity.kt:123-128 | an arrival is admitted exactly when it comes at least the gap after the last frame admitted before it, so no late-enough frame is dropped and no early one passes |
| ObjectLabels.ObjectLabelsActivity.constructor | app/src/main/java/com/example/cxrservicedemo/ObjectLabelsActivity.kt:33-36 | no detector, rotation 0, timestamp 0 |
| ObjectLabels.ObjectLabelsActivity.SetupDetector | app/src/main/java/com/example/cxrservicedemo/ObjectLabelsActivity.kt:65-80 | a detector exists afterwards |
| ObjectLabels.ObjectLabelsActivity.RunDetection | app/src/main/java/com/example/cxrservicedemo/ObjectLabelsActivity.kt:120-152 | no detector, or a frame under 120 ms after the last one, changes nothing and closes the frame; an admitted frame moves the timestamp and records the rotation, even if conversion fails; the result follows `Convert` and the detector; the frame's close count rises by exactly one on every path except an exception from conversion, which leaves it unchanged |
| ObjectLabels.ShowPosted | app/src/main/java/com/example/cxrservicedemo/ObjectLabelsActivity.kt:143-146 | the posted result updates the overlay table to `UpdateSlots` at the frame's time |
| HandTracking.Toggled | app/src/main/java/com/example/cxrservicedemo/HandTrackingActivity.kt:145 | the mode is always 1 or 2 and always changes |
| HandTracking.ToggleTwiceRestores | app/src/main/java/com/example/cxrservicedemo/HandTrackingActivity.kt:144-147 | toggling twice restores the mode |
| HandTracking.HandTrackingActivity.constructor | app/src/main/java/com/example/cxrservicedemo/HandTrackingActivity.kt:37 | starts in two-hand mode with no landmarker |
| HandTracking.HandTrackingActivity.SetupHandLandmarker | app/src/main/java/com/example/cxrservicedemo/HandTrackingActivity.kt:74-100 | the landmarker is rebuilt for the current mode and the status shows it |
| HandTracking.HandTrackingActivity.ToggleNumHands | app/src/main/java/com/example/cxrservicedemo/HandTrackingActivity.kt:144-147 | the mode alternates, stays in {1, 2}, and the landmarker follows it |
| HandTracking.HandTrackingActivity.RunHandTracking | app/src/main/java/com/example/cxrservicedemo/HandTrackingActivity.kt:149-187 | no landmarker, or a frame under 34 ms after the last, changes nothing and closes the frame; only admitted frames update the timestamp and rotation; the frame's close count rises by exactly one on every path except an exception from conversion, which leaves it unchanged |
| HandTracking.HandTrackingActivity.OnResult | app/src/main/java/com/example/cxrservicedemo/HandTrackingActivity.kt:85-94 | the listener forwards the hands, the input size and the latest admitted rotation to the overlay |

## Left out

- **MainActivity.** The Bluetooth/CXR service screen is not part of this model; it appears only as the screen the third button opens.
- **Platform calls** are not modelled, only their outcomes:
  - Android lifecycle, permissions, layout, painting, colours, paint alphas and stroke widths.
  - `postInvalidateOnAnimation` and `runOnUiThread`. Each posted UI action is a separate method, such as `ObjectLabels.ShowPosted` or `HandTracking.HandTrackingActivity.OnResult`.
- **Libraries.** MediaPipe, CameraX, SensorManager and AudioRecord are outside the model. Their results are parameters:
  - the detector's result, or its exception;
  - whether `detectAsync` throws;
  - the orientation from the rotation-vector conversion;
  - the accelerometer tilt from `atan2`;
  - the audio square root;
  - the random particle draws.
- **Audio capture and restarts.** The audio thread, `running` and `interrupt`, and the starting and stopping of capture are not modelled. One chunk is one call of `OnAudioChunk`.
- **Concurrency.** `@Volatile` fields and races between the camera executor, the audio thread and the UI thread are not modelled. Every callback is an atomic step.
- **Numbers.**
  - Float and double rounding is not modelled; values are reals.
  - Int and Long overflow is not modelled (for example `width * height * 4` and the timestamp differences).
- **Text.** String formatting of the status lines (`%.2f`, degrees) is not modelled; status lines are datatypes carrying the values. The number-of-detections status line is not modelled.
- **Pinyin table.** The `labelToPinyin` table is a parameter `pinyinOf`, which also stands for `lowercase()`.
- **Drawing geometry.**
  - Ring, ripple and particle radii, phases and swirl, and the Random size jitter are not modelled.
  - The view is modelled up to the camera centre, the ripple gate and the particle ensemble.
  - Text row positions are reduced to "row i shows slot i".
- **CameraX results.** Analyzer registration, the capture frame-rate request, and the detector and landmarker configuration are not modelled. They appear only as "a detector or landmarker exists" and the hand mode.
- AmbientActivity.AmbientVisualizerActivity.StartSensors: listener registration is not modelled. Only the chosen sensor, the mode, the label and the status are.
- HandTracking.HandTrackingActivity.RunHandTracking: the listener's asynchronous result is a separate call (`OnResult`). Which submitted frame a result belongs to is not tracked.
