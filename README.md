# Arm-curl coach: a Dafny model of the camera source

This project models the logic of `CameraSource`, the class behind the pose-estimation app's
camera preview. It covers four parts:

- the **repetition counter**: two hysteresis bands on `|elbowAngle|` (160–210 for an extended
  arm, 70–110 for a curled arm), the `upPosition`/`downPosition` latches, `reps`, and the posture
  latch (`highlightBack`, `backWarningGiven`);
- the **confidence gate**: the elbow angle comes from the left arm when its wrist, elbow and
  shoulder all score above 0.3. Otherwise it comes from the right arm under the same test.
  Otherwise the old angle is kept;
- **frame dispatch**: swapping the detector and classifier, `processImage`, the frames-per-second
  counter with its one-second timer task, and the keypoint capture in `visualize`;
- the **letterbox rectangle** that centres the annotated bitmap on the preview canvas.

Modules:

- `Data` holds the value types.
- `KotlinMath` holds Kotlin's truncating `Int /` and `Double %`.
- `Text` holds the decimal text of the spoken count.
- `Exercise` holds the counter as pure transition functions, with lemmas over runs of frames.
- `KeyPoints` holds the keypoint capture and the confidence gate.
- `Throughput` holds the frames-per-second counter.
- `Components` holds the detector and classifier swap.
- `Compositor` holds the letterbox rectangle.
- `Camera` holds the class `CameraSource`. Its fields are the source's fields. Each method's
  contract ties the new fields to the pure functions above.

Modelling choices:

- Listener calls, `Log.d` lines, `close()` calls on the detector and classifier, and the final
  `drawBitmap` are appended to an `events` log.
- The `atan2` angle between three points is a function parameter `jointAngle`.
- The detector and classifier are the function parameters `estimate` and `classify`.
- The nine `lateinit` keypoint fields are a map from body part to keypoint. In Kotlin, reading
  one that was never set throws. Here that read gives `Access.Unset`, and the frame stops:
  `ProcessImage` returns `ok == false`, and neither the counter nor the draw runs.

Consequences of the code worth knowing:

- **Example counts.** From the down latch, the angles 180, 90, 180 count **two** repetitions,
  and so do 180, 180, 90, 90, 180. The reason is that the starting down latch followed by an
  extended arm is already a Down-to-Up transition. From the initial state (both latches clear),
  180, 90, 180 counts one. See `Exercise.ExtendCurlExtendFromRest`, `Exercise.ExtendCurlExtendFromDown` and
  `Exercise.HoldCurlHoldExtend`.
  In general, `Exercise.RunReps` shows that the count grows by exactly the number of Down-to-Up
  transitions in the sequence of band hits, where the sequence starts with the phase the latches
  record.
- **Low-confidence frames.** When no arm is confidently seen, the frame is not skipped. The
  retained angle is evaluated again by `inUpPosition` and `inDownPosition`. The class invariant
  `CameraSource.Valid` includes `Exercise.Settled`: the latches already record the band of the
  stored angle. The constructor establishes it. `SetDetector`, `SetClassifier`, `FpsTick`, `UpdateBackAngle`,
  `CaptureKeyPoints`, `CountRepetition` (by `Exercise.FrameSettles`), `Draw`, `Visualize` and
  `ProcessImage` require and keep it. `UpdateArmAngle`, `InUpPosition`, `InDownPosition` and
  `TestPositions` are steps inside `CountRepetition` and neither require nor keep it.
  `Exercise.SettledIffSilent` shows that re-evaluating the stored angle is silent exactly in a
  settled state. So `Camera.UnconfidentFrameIsSilent` holds: a frame in which neither arm is
  confidently seen, whatever new keypoints it brings, changes nothing and emits nothing, which is
  the same as skipping it.
- **Posture check.** `updateBackAngle` is modelled (`CameraSource.UpdateBackAngle`), but
  `visualize` does not call it, because the call is commented out in the source.
  - Its low-confidence path stores `angle % 180` computed from the unconfident keypoints. It
    does not keep the old value.
  - The posture warning is only a log line, not a listener call.
- **Keypoint capture.** The capture uses every detected person, not only those that
  `drawBodyKeypoints` draws (person score above 0.2). So the last person in the list wins.

## Model

| member | source | states |
|---|---|---|
| `KotlinMath.Abs` | app/src/main/java/org/tensorflow/lite/examples/poseestimation/camera/CameraSource.kt:475 | `abs` of a Double is non-negative and equals the angle or its negation |
| `KotlinMath.Div` | app/src/main/java/org/tensorflow/lite/examples/poseestimation/camera/CameraSource.kt:377 | Kotlin `Int / 2` rounds toward zero: the remainder is smaller than the divisor and has the dividend's sign |
| `KotlinMath.Rem180` | app/src/main/java/org/tensorflow/lite/examples/poseestimation/camera/CameraSource.kt:456 | `angle % 180` lies strictly between -180 and 180, has the sign of `angle`, and differs from it by 180 times the quotient truncated toward zero |
| `Text.Decimal` | app/src/main/java/org/tensorflow/lite/examples/poseestimation/camera/CameraSource.kt:478-479 | `reps.toString()` is a non-empty string of decimal digits with no leading zero |
| `Text.DecimalRoundTrip` | app/src/main/java/org/tensorflow/lite/examples/poseestimation/camera/CameraSource.kt:478-479 | the spoken text reads back as the count |
| `Text.DecimalInjective` | app/src/main/java/org/tensorflow/lite/examples/poseestimation/camera/CameraSource.kt:477-479 | different counts are spoken as different texts |
| `Exercise.InUp` | app/src/main/java/org/tensorflow/lite/examples/poseestimation/camera/CameraSource.kt:474-485 | outside 160 < \|angle\| < 210 nothing changes and nothing is emitted; inside it, up is latched and down cleared, and `reps` rises by exactly 1 iff `downPosition` was set, in which case the new count is logged and spoken |
| `Exercise.InDown` | app/src/main/java/org/tensorflow/lite/examples/poseestimation/camera/CameraSource.kt:488-510 | outside 70 < \|angle\| < 110 nothing changes; inside it, down is latched and up cleared; the "Вверх" cue is spoken iff `upPosition` was set and a listener is attached |
| `Exercise.InDownEvents` | app/src/main/java/org/tensorflow/lite/examples/poseestimation/camera/CameraSource.kt:500-506 | on reaching the down band from the up latch, the cue is spoken (with a listener) and then "Up" is logged; otherwise nothing is emitted |
| `Exercise.Frame` | app/src/main/java/org/tensorflow/lite/examples/poseestimation/camera/CameraSource.kt:358-363 | one frame (store the angle, then inUpPosition, then inDownPosition): the count rises by at most 1, and by 1 iff the angle is in the up band and the arm was down; the disjoint bands leave the latches at the band the angle falls in; a dead-zone angle changes nothing but the stored angle; the latches are never both set; posture fields untouched |
| `Exercise.FrameSettles` | app/src/main/java/org/tensorflow/lite/examples/poseestimation/camera/CameraSource.kt:358-363 | after any frame the latches record the band of the stored angle |
| `Exercise.SettledIffSilent` | app/src/main/java/org/tensorflow/lite/examples/poseestimation/camera/CameraSource.kt:359-362 | re-evaluating the stored angle changes nothing and emits nothing iff the latches already record its band |
| `Exercise.FrameRepeatIsSilent` | app/src/main/java/org/tensorflow/lite/examples/poseestimation/camera/CameraSource.kt:359-362 | evaluating the same angle again changes nothing and emits nothing |
| `Exercise.RunDownFlag` | app/src/main/java/org/tensorflow/lite/examples/poseestimation/camera/CameraSource.kt:474-510 | after any run, `downPosition` is set iff the last band hit (or the starting latch) is the down band |
| `Exercise.RunKeepsExclusive` | app/src/main/java/org/tensorflow/lite/examples/poseestimation/camera/CameraSource.kt:474-510 | from a state with at most one latch set, the latches are never both set after any run |
| `Exercise.RunUpFlag` | app/src/main/java/org/tensorflow/lite/examples/poseestimation/camera/CameraSource.kt:474-510 | from a state with at most one latch set, `upPosition` is set after any run iff the last band hit (or the starting latch) is the up band |
| `Exercise.RunReps` | app/src/main/java/org/tensorflow/lite/examples/poseestimation/camera/CameraSource.kt:474-510 | over any run, repetitions counted equal the number of Down-to-Up transitions in the sequence of band hits |
| `Exercise.RunRepsBounds` | app/src/main/java/org/tensorflow/lite/examples/poseestimation/camera/CameraSource.kt:477 | `reps` never decreases and rises by at most one per frame |
| `Exercise.DeadZoneRun` | app/src/main/java/org/tensorflow/lite/examples/poseestimation/camera/CameraSource.kt:474-510 | any number of dead-zone angles changes neither latch nor the count and emits nothing |
| `Exercise.ExtendCurlExtendFromRest` | app/src/main/java/org/tensorflow/lite/examples/poseestimation/camera/CameraSource.kt:474-510 | 180, 90, 180 counts one repetition from the initial state |
| `Exercise.ExtendCurlExtendFromDown` | app/src/main/java/org/tensorflow/lite/examples/poseestimation/camera/CameraSource.kt:474-510 | 180, 90, 180 counts two repetitions from the down latch |
| `Exercise.HoldCurlHoldExtend` | app/src/main/java/org/tensorflow/lite/examples/poseestimation/camera/CameraSource.kt:474-510 | 180, 180, 90, 90, 180 from the down latch counts two repetitions |
| `Exercise.Posture` | app/src/main/java/org/tensorflow/lite/examples/poseestimation/camera/CameraSource.kt:461-470 | `highlightBack` is false exactly when the back angle is below 20 or above 160; `backWarningGiven` becomes set the first time the back is highlighted and is never cleared; the warning is logged only on that first time |
| `Exercise.PostureWarnsOnce` | app/src/main/java/org/tensorflow/lite/examples/poseestimation/camera/CameraSource.kt:461-470 | over any sequence of back angles, the latch is set iff it was set or some angle was flagged, and the warning is logged at most once |
| `KeyPoints.CaptureWellFormed` | app/src/main/java/org/tensorflow/lite/examples/poseestimation/camera/CameraSource.kt:335-357 | capturing keeps only the nine tracked parts, each under its own name, and never unsets a field |
| `KeyPoints.CaptureAppend` | app/src/main/java/org/tensorflow/lite/examples/poseestimation/camera/CameraSource.kt:335-357 | capturing two keypoint lists one after the other equals capturing their concatenation, so person-by-person capture is capture of the flattened list |
| `KeyPoints.CaptureUntouched` | app/src/main/java/org/tensorflow/lite/examples/poseestimation/camera/CameraSource.kt:335-357 | a field whose part does not appear keeps its value (or stays unset) |
| `KeyPoints.CaptureKeepsLast` | app/src/main/java/org/tensorflow/lite/examples/poseestimation/camera/CameraSource.kt:335-357 | a tracked field holds the last keypoint of its part across all persons |
| `KeyPoints.AllConfident` | app/src/main/java/org/tensorflow/lite/examples/poseestimation/camera/CameraSource.kt:417 | the short-circuit test is true iff all three keypoints are set and score above 0.3; it completes iff every field it reaches is set (the second is read only if the first scored above 0.3, the third only if the second did), and otherwise fails on the first unset field it reaches |
| `KeyPoints.GatedElbowAngle` | app/src/main/java/org/tensorflow/lite/examples/poseestimation/camera/CameraSource.kt:416-442 | the left-arm angle iff the left wrist, elbow and shoulder all score above 0.3; otherwise the right-arm angle iff the right three do; otherwise the previous angle; it completes iff the left test reaches only set fields and, when the left arm is not confident, so does the right test; never fails once the six fields are set |
| `KeyPoints.BackAngleSample` | app/src/main/java/org/tensorflow/lite/examples/poseestimation/camera/CameraSource.kt:447-459 | fails iff knee, hip or shoulder is unset; the raw angle when all three score above 0.3, otherwise the truncated remainder `angle % 180` |
| `Throughput.CountFrame` | app/src/main/java/org/tensorflow/lite/examples/poseestimation/camera/CameraSource.kt:315-319 | every frame raises the counter by 1; the rate is reported only on the frame that makes the counter 1 |
| `Throughput.Tick` | app/src/main/java/org/tensorflow/lite/examples/poseestimation/camera/CameraSource.kt:264-267 | the timer task copies the counter into the rate and zeroes it |
| `Throughput.CountFramesEffect` | app/src/main/java/org/tensorflow/lite/examples/poseestimation/camera/CameraSource.kt:315-319 | n frames raise the counter by n and report the rate once, only if the counter started at 0 |
| `Throughput.OneReportPerWindow` | app/src/main/java/org/tensorflow/lite/examples/poseestimation/camera/CameraSource.kt:262-271 | between two ticks the previous window's count is reported exactly once, and the next tick reports this window's frame count |
| `Components.Replace` | app/src/main/java/org/tensorflow/lite/examples/poseestimation/camera/CameraSource.kt:230-248 | after a swap the new component is held and the previously held one, if any, is closed |
| `Components.ReplaceAllClosesEachOnce` | app/src/main/java/org/tensorflow/lite/examples/poseestimation/camera/CameraSource.kt:230-248 | over any sequence of swaps, every component held and then replaced is closed exactly once, in installation order, and the last one stays open |
| `Compositor.ScaledLength` | app/src/main/java/org/tensorflow/lite/examples/poseestimation/camera/CameraSource.kt:376 | the scaled length is the largest whole length not above length × ratio |
| `Compositor.Letterbox` | app/src/main/java/org/tensorflow/lite/examples/poseestimation/camera/CameraSource.kt:372-386 | a canvas taller than wide gets left 0 and the full width, otherwise top 0 and the full height; the other side keeps the bitmap's aspect ratio up to rounding down; right = left + width, bottom = top + height; the two margins of each axis differ by at most 1 and are non-negative when the image fits |
| `Camera.Detect` | app/src/main/java/org/tensorflow/lite/examples/poseestimation/camera/CameraSource.kt:304-305 | without a detector no person is found |
| `Camera.Classify` | app/src/main/java/org/tensorflow/lite/examples/poseestimation/camera/CameraSource.kt:308-311 | the classifier runs iff one is held and someone was detected, and only on the first person |
| `Camera.DetectedEvents` | app/src/main/java/org/tensorflow/lite/examples/poseestimation/camera/CameraSource.kt:321-324 | `onDetectedInfo` fires iff someone was detected and a listener is attached, with the first person's score and the labels |
| `Camera.NoCountingBeforeShoulder` | app/src/main/java/org/tensorflow/lite/examples/poseestimation/camera/CameraSource.kt:358 | until a left shoulder has been seen, the counter block neither changes the state nor emits anything |
| `Camera.UnconfidentFrameIsSilent` | app/src/main/java/org/tensorflow/lite/examples/poseestimation/camera/CameraSource.kt:416-442 | from a settled state, a frame in which neither arm scores above 0.3 on all three keypoints changes nothing and emits nothing, unless it aborts |
| `Camera.RepeatedFrameIsSilent` | app/src/main/java/org/tensorflow/lite/examples/poseestimation/camera/CameraSource.kt:358-363 | a frame with no new keypoints re-evaluates the stored ones and changes nothing |
| `Camera.CameraSource.constructor` | app/src/main/java/org/tensorflow/lite/examples/poseestimation/camera/CameraSource.kt:82-100 | angles 0, latches clear, count 0, no detector, classifier or keypoints, counters 0 |
| `Camera.CameraSource.SetDetector` | app/src/main/java/org/tensorflow/lite/examples/poseestimation/camera/CameraSource.kt:230-238 | the new detector is held; the previously held one, if any, was closed once, before the replacement |
| `Camera.CameraSource.SetClassifier` | app/src/main/java/org/tensorflow/lite/examples/poseestimation/camera/CameraSource.kt:240-248 | the new (possibly absent) classifier is held; the previously held one, if any, was closed once |
| `Camera.CameraSource.FpsTick` | app/src/main/java/org/tensorflow/lite/examples/poseestimation/camera/CameraSource.kt:263-267 | the fields change as `Throughput.Tick` says |
| `Camera.CameraSource.UpdateArmAngle` | app/src/main/java/org/tensorflow/lite/examples/poseestimation/camera/CameraSource.kt:416-442 | `elbowAngle` becomes the gated angle; it is unchanged when an unset field is read |
| `Camera.CameraSource.UpdateBackAngle` | app/src/main/java/org/tensorflow/lite/examples/poseestimation/camera/CameraSource.kt:445-471 | the posture fields and the log change as `Exercise.Posture` on the back-angle sample says; nothing changes when an unset field is read |
| `Camera.CameraSource.InUpPosition` | app/src/main/java/org/tensorflow/lite/examples/poseestimation/camera/CameraSource.kt:474-485 | the fields and events change as `Exercise.InUp` says |
| `Camera.CameraSource.InDownPosition` | app/src/main/java/org/tensorflow/lite/examples/poseestimation/camera/CameraSource.kt:488-510 | the fields and events change as `Exercise.InDown` says |
| `Camera.CameraSource.CapturePerson` | app/src/main/java/org/tensorflow/lite/examples/poseestimation/camera/CameraSource.kt:337-356 | the inner loop leaves the keypoint fields as `KeyPoints.Capture` of one person's keypoints in order |
| `Camera.CameraSource.CaptureKeyPoints` | app/src/main/java/org/tensorflow/lite/examples/poseestimation/camera/CameraSource.kt:335-357 | the nested loops leave the keypoint fields as `KeyPoints.Capture` of all persons' keypoints in order, and keep the class invariant |
| `Camera.CameraSource.CountRepetition` | app/src/main/java/org/tensorflow/lite/examples/poseestimation/camera/CameraSource.kt:358-363 | no counting until a left shoulder has been seen; then the gated elbow angle drives one `Exercise.Frame`, and an unset field aborts the frame with nothing changed; the latches stay exclusive |
| `Camera.CameraSource.TestPositions` | app/src/main/java/org/tensorflow/lite/examples/poseestimation/camera/CameraSource.kt:361-362 | inUpPosition then inDownPosition on the stored angle change the fields and events as `Exercise.Frame` says |
| `Camera.CameraSource.Visualize` | app/src/main/java/org/tensorflow/lite/examples/poseestimation/camera/CameraSource.kt:329-394 | keypoints are captured, the counter runs, and the letterboxed blit happens whenever the canvas could be locked and the frame was not aborted, even with no persons |
| `Camera.CameraSource.Draw` | app/src/main/java/org/tensorflow/lite/examples/poseestimation/camera/CameraSource.kt:364-393 | the annotated bitmap is blitted into the letterbox rectangle iff the canvas could be locked |
| `Camera.CameraSource.DetectAndReport` | app/src/main/java/org/tensorflow/lite/examples/poseestimation/camera/CameraSource.kt:299-324 | persons come from the held detector; the frame counter changes as `Throughput.CountFrame` says; the rate report precedes the detection report |
| `Camera.CameraSource.ProcessImage` | app/src/main/java/org/tensorflow/lite/examples/poseestimation/camera/CameraSource.kt:299-327 | the frame is detected with the held detector and counted; the rate report, the detection report, the counter and the render follow in the source's order; the detector, classifier and posture fields are untouched |

## Left out

- Camera acquisition and session setup (`initCamera`, `openCamera`, `createSession`, `prepareCamera`, `getFrontFacingCameraId`): camera2 callbacks and coroutines, foreign I/O.
- YUV-to-RGB conversion and the rotation/mirroring matrix: library calls on pixel buffers; the model receives the rotated bitmap's size only.
- The `atan2` angle arithmetic: floating-point trigonometry, taken as the uninterpreted parameter `jointAngle` (end point, vertex, end point).
- Concurrency: the `synchronized(lock)` blocks, the image-reader `HandlerThread`, the `Timer` scheduling in `resume` (its task body is `FpsTick`) and `stopImageReaderThread`; every operation is sequential and mutual exclusion is not verified.
- `close()` teardown of session, camera, reader, threads, detector, classifier, timer and text-to-speech: foreign resources; the `tts` field is never used otherwise.
- `setTracker` and `isTrackerEnabled`: a cast into a foreign model class, used only for drawing ids and boxes; the person id and bounding box are left out of `Person` for the same reason.
- `drawBodyKeypoints` (skeleton lines, circles, labels) and its person filter `score > MIN_CONFIDENCE`: drawing only; the annotated bitmap is taken to have the camera bitmap's size, as the copy it is drawn on does.
- `lockCanvas`/`unlockCanvasAndPost`: a canvas that cannot be locked is the `None` canvas, and nothing is drawn.
- What happens after a read of an unset `lateinit` field: the exception leaves `processImage` and the image listener; the model only reports `ok == false` for that frame.
- The duplicate counter in VisualizationUtils.kt: its call is commented out, so it is dead code with different thresholds.
- Floating point: angles, scores and the 0.3 threshold are exact reals; NaN, infinities and rounding are not modelled.
- Compositor.Letterbox: `(x * ratio).toInt()` with a `Float` ratio is modelled as the exact integer quotient `x * num / den`, so float rounding that could differ by one pixel is not modelled; bitmaps have positive sides.
- Exercise.InUp: `reps` is an unbounded count, so the 32-bit `Int` wrap-around after 2^31 - 1 repetitions is not modelled; the same holds for the frame counter in Throughput.CountFrame.
- `Log.d` tags are not modelled; a log line is the event `Logged(message)`.
