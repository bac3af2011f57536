// The camera source: holds the detector and classifier, processes each camera
// frame, keeps the last-seen keypoints and drives the repetition counter.
module Camera {
  import opened Data
  import opened KeyPoints
  import opened Exercise
  import Throughput
  import Compositor
  import Text
  import opened KotlinMath

  /** PoseDetector.estimatePoses, a foreign model. */
  type Estimator = (Detector, Bitmap) -> seq<Person>

  /** PoseClassifier.classify, a foreign model. */
  type PoseClassify = (Classifier, Person) -> seq<Label>

  /** The persons the held detector finds in a bitmap; none when no detector is held. */
  function Detect(detector: Option<Detector>, bitmap: Bitmap, estimate: Estimator): (r: seq<Person>)
    ensures detector.None? ==> r == []
  {
    if detector.Some? then estimate(detector.value, bitmap) else []
  }

  /** The classifier runs only when someone was detected, and only on the first person. */
  function Classify(classifier: Option<Classifier>, persons: seq<Person>, classify: PoseClassify)
    : (r: Option<seq<Label>>)
    ensures r.Some? <==> classifier.Some? && |persons| > 0
    ensures r.Some? ==> r.value == classify(classifier.value, persons[0])
  {
    if |persons| > 0 && classifier.Some? then Some(classify(classifier.value, persons[0])) else None
  }

  /** onDetectedInfo fires only when someone was detected, with the first person's score. */
  function DetectedEvents(persons: seq<Person>, labels: Option<seq<Label>>, listening: bool): (r: seq<Event>)
    ensures r != [] <==> |persons| > 0 && listening
    ensures r != [] ==> r == [DetectedInfo(persons[0].score, labels)]
  {
    if |persons| > 0 && listening then [DetectedInfo(persons[0].score, labels)] else []
  }

  /** The counter's part of visualize: nothing until a left shoulder has been seen, then the
      gated elbow angle drives one frame of the state machine; an unset keypoint aborts the frame. */
  function ExerciseFrame(store: Store, s: ExerciseState, jointAngle: JointAngle, listening: bool)
    : Access<Step>
  {
    if LeftShoulder !in store then Ok(Step(s, []))
    else
      match GatedElbowAngle(store, s.elbowAngle, jointAngle)
      case Unset(p) => Unset(p)
      case Ok(angle) => Ok(Frame(s, angle, listening))
  }

  /** Nothing is counted, and nothing emitted, until a left shoulder has been seen. */
  lemma NoCountingBeforeShoulder(store: Store, s: ExerciseState, jointAngle: JointAngle, listening: bool)
    requires LeftShoulder !in store
    ensures ExerciseFrame(store, s, jointAngle, listening) == Ok(Step(s, []))
  {
  }

  /** A frame that brings no new keypoints re-evaluates the stored ones; that changes nothing and
      emits nothing, so retaining the stale angle has the effect of skipping the frame. */
  lemma RepeatedFrameIsSilent(store: Store, s: ExerciseState, jointAngle: JointAngle, listening: bool)
    requires ExerciseFrame(store, s, jointAngle, listening).Ok?
    ensures var first := ExerciseFrame(store, s, jointAngle, listening).value;
      ExerciseFrame(store, first.state, jointAngle, listening) == Ok(Step(first.state, []))
  {
    if LeftShoulder in store {
      var angle := GatedElbowAngle(store, s.elbowAngle, jointAngle).value;
      FrameRepeatIsSilent(s, angle, listening);
    }
  }

  /** A frame in which neither arm is confidently seen keeps the stored angle; from a settled
      state, which every frame leaves behind, it changes nothing and emits nothing, so it has the
      effect of skipping the frame. */
  lemma UnconfidentFrameIsSilent(store: Store, s: ExerciseState, jointAngle: JointAngle, listening: bool)
    requires Settled(s)
    requires !Ready(store, LeftWrist, LeftElbow, LeftShoulder)
    requires !Ready(store, RightWrist, RightElbow, RightShoulder)
    ensures ExerciseFrame(store, s, jointAngle, listening).Ok? ==>
      ExerciseFrame(store, s, jointAngle, listening) == Ok(Step(s, []))
  {
    if LeftShoulder in store && GatedElbowAngle(store, s.elbowAngle, jointAngle).Ok? {
      SettledIffSilent(s, listening);
    }
  }

  /** The blit of the annotated bitmap, when the canvas could be locked. The annotated bitmap is a
      copy of the camera bitmap, so it has the same size. */
  function DrawEvents(canvas: Option<Canvas>, bitmap: Bitmap): seq<Event> {
    if canvas.Some? then [Drawn(Rect(0, 0, bitmap.width, bitmap.height), Compositor.Letterbox(canvas.value, bitmap))]
    else []
  }

  class CameraSource {
    /** Whether a listener was given: every listener call is skipped without one. */
    const listening: bool

    /** The lateinit keypoint fields leftWrist ... nose. */
    var lastSeen: Store

    var elbowAngle: real
    var backAngle: real
    var upPosition: bool
    var downPosition: bool
    var highlightBack: bool
    var backWarningGiven: bool
    var reps: nat

    var detector: Option<Detector>
    var classifier: Option<Classifier>

    var frameProcessedInOneSecondInterval: nat
    var framesPerSecond: nat

    /** Everything emitted so far: listener calls, log lines, component releases and draws. */
    var events: seq<Event>

    ghost predicate Valid()
      reads this
    {
      WellFormed(lastSeen) && Exclusive(ExerciseFields()) && Settled(ExerciseFields())
    }

    function ExerciseFields(): ExerciseState
      reads this
    {
      ExerciseState(elbowAngle, backAngle, upPosition, downPosition, highlightBack, backWarningGiven, reps)
    }

    function FpsFields(): Throughput.Counter
      reads this
    {
      Throughput.Counter(frameProcessedInOneSecondInterval, framesPerSecond)
    }

    constructor (listening: bool)
      ensures Valid() && this.listening == listening
      ensures ExerciseFields() == Initial && lastSeen == map[]
      ensures detector == None && classifier == None
      ensures FpsFields() == Throughput.Counter(0, 0) && events == []
    {
      this.listening := listening;
      lastSeen := map[];
      elbowAngle, backAngle := 0.0, 0.0;
      upPosition, downPosition, highlightBack, backWarningGiven := false, false, false, false;
      reps := 0;
      detector, classifier := None, None;
      frameProcessedInOneSecondInterval, framesPerSecond := 0, 0;
      events := [];
    }

    /** Close the held detector, then hold the new one. */
    method SetDetector(d: Detector)
      requires Valid()
      modifies this`detector, this`events
      ensures Valid()
      ensures detector == Some(d)
      ensures events == old(events) + if old(detector).Some? then [DetectorClosed(old(detector).value)] else []
    {
      if detector.Some? {
        events := events + [DetectorClosed(detector.value)];
        detector := None;
      }
      detector := Some(d);
    }

    /** Close the held classifier, then hold the new one, which may be none. */
    method SetClassifier(c: Option<Classifier>)
      requires Valid()
      modifies this`classifier, this`events
      ensures Valid()
      ensures classifier == c
      ensures events == old(events) + if old(classifier).Some? then [ClassifierClosed(old(classifier).value)] else []
    {
      if classifier.Some? {
        events := events + [ClassifierClosed(classifier.value)];
        classifier := None;
      }
      classifier := c;
    }

    /** The once-a-second timer task scheduled by resume. */
    method FpsTick()
      requires Valid()
      modifies this`frameProcessedInOneSecondInterval, this`framesPerSecond
      ensures Valid()
      ensures FpsFields() == Throughput.Tick(old(FpsFields()))
    {
      framesPerSecond := frameProcessedInOneSecondInterval;
      frameProcessedInOneSecondInterval := 0;
    }

    /** updateArmAngle; `ok` is false when it reads a keypoint field that was never set. */
    method UpdateArmAngle(jointAngle: JointAngle) returns (ok: bool)
      modifies this`elbowAngle
      ensures var gated := GatedElbowAngle(lastSeen, old(elbowAngle), jointAngle);
        ok == gated.Ok? && elbowAngle == if ok then gated.value else old(elbowAngle)
    {
      var left := AllConfident(lastSeen, LeftWrist, LeftElbow, LeftShoulder);
      if left.Unset? {
        return false;
      }
      if left.value {
        elbowAngle := Angle(lastSeen, LeftWrist, LeftElbow, LeftShoulder, jointAngle);
        return true;
      }
      var right := AllConfident(lastSeen, RightWrist, RightElbow, RightShoulder);
      if right.Unset? {
        return false;
      }
      if right.value {
        elbowAngle := Angle(lastSeen, RightWrist, RightElbow, RightShoulder, jointAngle);
      }
      ok := true;
    }

    /** updateBackAngle; `ok` is false when it reads a keypoint field that was never set. */
    method UpdateBackAngle(jointAngle: JointAngle) returns (ok: bool)
      requires Valid()
      modifies this`backAngle, this`highlightBack, this`backWarningGiven, this`events
      ensures Valid()
      ensures var sample := BackAngleSample(lastSeen, jointAngle);
        ok == sample.Ok?
        && ExerciseFields() == (if ok then Posture(old(ExerciseFields()), sample.value).state else old(ExerciseFields()))
        && events == old(events) + if ok then Posture(old(ExerciseFields()), sample.value).events else []
    {
      var sample := BackAngleSample(lastSeen, jointAngle);
      if sample.Unset? {
        return false;
      }
      ghost var step := Posture(ExerciseFields(), sample.value);
      backAngle := sample.value;
      if backAngle < 20.0 || backAngle > 160.0 {
        highlightBack := false;
      } else {
        if !backWarningGiven {
          events := events + [Logged(BACK_WARNING)];
          backWarningGiven := true;
        }
        highlightBack := true;
      }
      assert ExerciseFields() == step.state && events == old(events) + step.events;
      ok := true;
    }

    /** inUpPosition. */
    method InUpPosition()
      modifies this`upPosition, this`downPosition, this`reps, this`events
      ensures ExerciseFields() == InUp(old(ExerciseFields()), listening).state
      ensures events == old(events) + InUp(old(ExerciseFields()), listening).events
    {
      if Abs(elbowAngle) > 160.0 && Abs(elbowAngle) < 210.0 {
        if downPosition {
          reps := reps + 1;
          var said := Text.Decimal(reps);
          events := events + [Logged(said)];
          if listening {
            events := events + [Spoken(said)];
          }
        }
        upPosition := true;
        downPosition := false;
      }
    }

    /** inDownPosition. */
    method InDownPosition()
      modifies this`upPosition, this`downPosition, this`events
      ensures ExerciseFields() == InDown(old(ExerciseFields()), listening).state
      ensures events == old(events) + InDown(old(ExerciseFields()), listening).events
    {
      if Abs(elbowAngle) > 70.0 && Abs(elbowAngle) < 110.0 {
        if upPosition {
          if listening {
            events := events + [Spoken(UP_CUE)];
          }
          events := events + [Logged(UP_LOG)];
        }
        downPosition := true;
        upPosition := false;
      }
    }

    /** The two position tests countRepetition runs on the angle it has just stored. */
    method TestPositions()
      modifies this`upPosition, this`downPosition, this`reps, this`events
      ensures ExerciseFields() == Frame(old(ExerciseFields()), elbowAngle, listening).state
      ensures events == old(events) + Frame(old(ExerciseFields()), elbowAngle, listening).events
    {
      ghost var s := ExerciseFields();
      assert s.(elbowAngle := elbowAngle) == s;
      InUpPosition();
      InDownPosition();
    }

    /** The inner forEach of visualize: each keypoint of one person, in order, overwrites the
        field of its part. */
    method CapturePerson(points: seq<KeyPoint>)
      modifies this`lastSeen
      ensures lastSeen == Capture(old(lastSeen), points)
    {
      var j := 0;
      while j < |points|
        invariant 0 <= j <= |points|
        invariant lastSeen == Capture(old(lastSeen), points[..j])
      {
        var point := points[j];
        assert points[..j + 1][..j] == points[..j];
        if point.bodyPart in TRACKED {
          lastSeen := lastSeen[point.bodyPart := point];
        }
        j := j + 1;
      }
      assert points[..|points|] == points;
    }

    /** The outer forEach of visualize: every person's keypoints, person by person. */
    method CaptureKeyPoints(persons: seq<Person>)
      requires Valid()
      modifies this`lastSeen
      ensures Valid()
      ensures lastSeen == Capture(old(lastSeen), Flatten(persons))
    {
      var i := 0;
      while i < |persons|
        invariant 0 <= i <= |persons|
        invariant lastSeen == Capture(old(lastSeen), Flatten(persons[..i]))
      {
        CapturePerson(persons[i].keyPoints);
        assert persons[..i + 1][..i] == persons[..i];
        CaptureAppend(old(lastSeen), Flatten(persons[..i]), persons[i].keyPoints);
        i := i + 1;
      }
      assert persons[..|persons|] == persons;
      CaptureWellFormed(old(lastSeen), Flatten(persons));
    }

    /** The counter block of visualize: runs once a left shoulder has been seen; `ok` is false when
        updateArmAngle reads a keypoint field that was never set. */
    method CountRepetition(jointAngle: JointAngle) returns (ok: bool)
      requires Valid()
      modifies this`elbowAngle, this`upPosition, this`downPosition, this`reps, this`events
      ensures Valid()
      ensures var frame := ExerciseFrame(lastSeen, old(ExerciseFields()), jointAngle, listening);
        ok == frame.Ok?
        && ExerciseFields() == (if ok then frame.value.state else old(ExerciseFields()))
        && events == old(events) + if ok then frame.value.events else []
    {
      ghost var before := ExerciseFields();
      if LeftShoulder !in lastSeen {
        assert ExerciseFrame(lastSeen, before, jointAngle, listening) == Ok(Step(before, []));
        return true;
      }
      ghost var gated := GatedElbowAngle(lastSeen, before.elbowAngle, jointAngle);
      ok := UpdateArmAngle(jointAngle);
      if !ok {
        assert ExerciseFrame(lastSeen, before, jointAngle, listening) == Unset(gated.part);
        return;
      }
      assert ExerciseFrame(lastSeen, before, jointAngle, listening) == Ok(Frame(before, gated.value, listening));
      FrameSettles(before, gated.value, listening);
      TestPositions();
    }

    /** visualize: capture the keypoints, run the counter, then blit the annotated bitmap
        letterboxed onto the canvas if one could be locked. */
    method Visualize(persons: seq<Person>, bitmap: Bitmap, canvas: Option<Canvas>, jointAngle: JointAngle)
      returns (ok: bool)
      requires Valid()
      modifies this`lastSeen, this`elbowAngle, this`upPosition, this`downPosition, this`reps, this`events
      ensures Valid()
      ensures lastSeen == Capture(old(lastSeen), Flatten(persons))
      ensures var frame := ExerciseFrame(lastSeen, old(ExerciseFields()), jointAngle, listening);
        ok == frame.Ok?
        && ExerciseFields() == (if ok then frame.value.state else old(ExerciseFields()))
        && events == old(events) + if ok then frame.value.events + DrawEvents(canvas, bitmap) else []
    {
      CaptureKeyPoints(persons);
      ok := CountRepetition(jointAngle);
      if !ok {
        return;
      }
      Draw(bitmap, canvas);
    }

    /** The end of visualize: blit the annotated bitmap, letterboxed, onto the canvas if it
        could be locked. */
    method Draw(bitmap: Bitmap, canvas: Option<Canvas>)
      requires Valid()
      modifies this`events
      ensures Valid()
      ensures events == old(events) + DrawEvents(canvas, bitmap)
    {
      if canvas.Some? {
        var destination := Compositor.Letterbox(canvas.value, bitmap);
        events := events + [Drawn(Rect(0, 0, bitmap.width, bitmap.height), destination)];
      }
    }

    /** The first half of processImage: detect and classify under the lock, count the frame,
        report the rate on the first frame of a window and the first person's score. */
    method DetectAndReport(bitmap: Bitmap, estimate: Estimator, classify: PoseClassify)
      returns (persons: seq<Person>)
      modifies this`events, this`frameProcessedInOneSecondInterval
      ensures persons == Detect(detector, bitmap, estimate)
      ensures var counted := Throughput.CountFrame(old(FpsFields()), listening);
        FpsFields() == counted.counter
        && events == old(events) + counted.events
                     + DetectedEvents(persons, Classify(classifier, persons, classify), listening)
    {
      persons := [];
      var classificationResult: Option<seq<Label>> := None;
      if detector.Some? {
        persons := estimate(detector.value, bitmap);
        if |persons| > 0 && classifier.Some? {
          classificationResult := Some(classify(classifier.value, persons[0]));
        }
      }
      frameProcessedInOneSecondInterval := frameProcessedInOneSecondInterval + 1;
      if frameProcessedInOneSecondInterval == 1 && listening {
        events := events + [FpsReported(framesPerSecond)];
      }
      ghost var reported := events;
      if |persons| > 0 && listening {
        events := events + [DetectedInfo(persons[0].score, classificationResult)];
      }
      assert events == reported + DetectedEvents(persons, classificationResult, listening);
    }

    /** processImage: detect and report, then visualize. `ok` is false when visualize aborted
        on an unset keypoint field. */
    method ProcessImage(bitmap: Bitmap, estimate: Estimator, classify: PoseClassify,
                        canvas: Option<Canvas>, jointAngle: JointAngle)
      returns (ok: bool)
      requires Valid()
      modifies this`lastSeen, this`elbowAngle, this`upPosition, this`downPosition, this`reps, this`events
      modifies this`frameProcessedInOneSecondInterval
      ensures Valid()
      ensures var persons := Detect(detector, bitmap, estimate);
        var counted := Throughput.CountFrame(old(FpsFields()), listening);
        var frame := ExerciseFrame(lastSeen, old(ExerciseFields()), jointAngle, listening);
        FpsFields() == counted.counter
        && lastSeen == Capture(old(lastSeen), Flatten(persons))
        && ok == frame.Ok?
        && ExerciseFields() == (if ok then frame.value.state else old(ExerciseFields()))
        && events == old(events) + counted.events
                     + DetectedEvents(persons, Classify(classifier, persons, classify), listening)
                     + if ok then frame.value.events + DrawEvents(canvas, bitmap) else []
    {
      var persons := DetectAndReport(bitmap, estimate, classify);
      ok := Visualize(persons, bitmap, canvas, jointAngle);
    }
  }
}
