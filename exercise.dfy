// The arm-curl repetition counter: two hysteresis bands on |elbowAngle|, the
// up/down latches, the repetition count and the posture (back angle) latch.
module Exercise {
  import opened Data
  import opened KotlinMath
  import Text

  /** Arm extended: 160 < |angle| < 210. */
  predicate InUpBand(angle: real) {
    Abs(angle) > 160.0 && Abs(angle) < 210.0
  }

  /** Arm curled: 70 < |angle| < 110. */
  predicate InDownBand(angle: real) {
    Abs(angle) > 70.0 && Abs(angle) < 110.0
  }

  /** Neither band: the dead zone between and around them. */
  predicate InDeadZone(angle: real) {
    !InUpBand(angle) && !InDownBand(angle)
  }

  /** Spoken when the curled position is reached after the extended one ("Up"). */
  const UP_CUE: string := "Вверх"
  const UP_LOG: string := "Up"
  const BACK_WARNING: string := "Keep your back straight"

  /** The fields of the camera source that persist across frames for the exercise. */
  datatype ExerciseState = ExerciseState(
    elbowAngle: real,
    backAngle: real,
    upPosition: bool,
    downPosition: bool,
    highlightBack: bool,
    backWarningGiven: bool,
    reps: nat)

  const Initial: ExerciseState := ExerciseState(0.0, 0.0, false, false, false, false, 0)

  /** The up and down latches are never both set. */
  predicate Exclusive(s: ExerciseState) {
    !(s.upPosition && s.downPosition)
  }

  /** A new state together with the events emitted on the way to it. */
  datatype Step = Step(state: ExerciseState, events: seq<Event>)

  /** A listener call happens only when a listener is attached. */
  function Notify(listening: bool, e: Event): seq<Event> {
    if listening then [e] else []
  }

  /** inUpPosition: in the up band, count a repetition if the arm was down, then latch up. */
  function InUp(s: ExerciseState, listening: bool): (r: Step)
    ensures !InUpBand(s.elbowAngle) ==> r == Step(s, [])
    ensures InUpBand(s.elbowAngle) ==>
      r.state == s.(upPosition := true, downPosition := false, reps := r.state.reps)
    ensures r.state.reps == if InUpBand(s.elbowAngle) && s.downPosition then s.reps + 1 else s.reps
    ensures r.events ==
      if r.state.reps == s.reps then []
      else [Logged(Text.Decimal(r.state.reps))] + Notify(listening, Spoken(Text.Decimal(r.state.reps)))
  {
    if InUpBand(s.elbowAngle) then
      if s.downPosition then
        var said := Text.Decimal(s.reps + 1);
        Step(s.(upPosition := true, downPosition := false, reps := s.reps + 1),
             [Logged(said)] + Notify(listening, Spoken(said)))
      else
        Step(s.(upPosition := true, downPosition := false), [])
    else
      Step(s, [])
  }

  /** inDownPosition: in the down band, cue "Up" if the arm was up, then latch down. */
  function InDown(s: ExerciseState, listening: bool): (r: Step)
    ensures !InDownBand(s.elbowAngle) ==> r == Step(s, [])
    ensures InDownBand(s.elbowAngle) ==> r.state == s.(upPosition := false, downPosition := true)
    ensures (Spoken(UP_CUE) in r.events) <==> InDownBand(s.elbowAngle) && s.upPosition && listening
    ensures r.events == [] <==> !(InDownBand(s.elbowAngle) && s.upPosition)
  {
    if InDownBand(s.elbowAngle) then
      var events := if s.upPosition then Notify(listening, Spoken(UP_CUE)) + [Logged(UP_LOG)] else [];
      Step(s.(upPosition := false, downPosition := true), events)
    else
      Step(s, [])
  }

  /** On reaching the down band from the up latch, the cue is spoken (with a listener) and then
      "Up" is logged; nothing else is emitted. */
  lemma InDownEvents(s: ExerciseState, listening: bool)
    ensures InDown(s, listening).events ==
      if InDownBand(s.elbowAngle) && s.upPosition then Notify(listening, Spoken(UP_CUE)) + [Logged(UP_LOG)] else []
  {
  }

  /** One processed frame: the gated elbow angle is stored, then inUpPosition and inDownPosition run. */
  function Frame(s: ExerciseState, angle: real, listening: bool): (r: Step)
    ensures r.state.elbowAngle == angle
    ensures r.state.reps == if InUpBand(angle) && s.downPosition then s.reps + 1 else s.reps
    ensures InUpBand(angle) ==> r.state.upPosition && !r.state.downPosition
    ensures InDownBand(angle) ==> !r.state.upPosition && r.state.downPosition
    ensures InDeadZone(angle) ==> r == Step(s.(elbowAngle := angle), [])
    ensures Exclusive(s) ==> Exclusive(r.state)
    ensures r.state.backAngle == s.backAngle && r.state.highlightBack == s.highlightBack
    ensures r.state.backWarningGiven == s.backWarningGiven
  {
    var up := InUp(s.(elbowAngle := angle), listening);
    var down := InDown(up.state, listening);
    Step(down.state, up.events + down.events)
  }

  /** The latches already record the band the stored angle lies in. */
  predicate Settled(s: ExerciseState) {
    (InUpBand(s.elbowAngle) ==> s.upPosition && !s.downPosition)
    && (InDownBand(s.elbowAngle) ==> s.downPosition && !s.upPosition)
  }

  /** Re-evaluating the stored angle is silent exactly when the state is settled. */
  lemma SettledIffSilent(s: ExerciseState, listening: bool)
    ensures Settled(s) <==> Frame(s, s.elbowAngle, listening) == Step(s, [])
  {
    assert s.(elbowAngle := s.elbowAngle) == s;
  }

  /** Every frame leaves the latches at the band of the angle it stored. */
  lemma FrameSettles(s: ExerciseState, angle: real, listening: bool)
    ensures Settled(Frame(s, angle, listening).state)
  {
  }

  /** A frame that re-evaluates a retained angle changes nothing and says nothing. */
  lemma FrameRepeatIsSilent(s: ExerciseState, angle: real, listening: bool)
    ensures Frame(Frame(s, angle, listening).state, angle, listening) ==
            Step(Frame(s, angle, listening).state, [])
  {
  }

  /** Frames applied in order, one per angle. */
  function Run(s: ExerciseState, angles: seq<real>, listening: bool): Step
    decreases |angles|
  {
    if angles == [] then Step(s, [])
    else
      var before := Run(s, angles[..|angles| - 1], listening);
      var last := Frame(before.state, angles[|angles| - 1], listening);
      Step(last.state, before.events + last.events)
  }

  // ---- A reference description of the counter: the sequence of band hits ----

  datatype Phase = Up | Down

  /** The band an angle falls in; none in the dead zone. */
  function Band(angle: real): (r: seq<Phase>)
    ensures |r| <= 1
  {
    if InUpBand(angle) then [Up] else if InDownBand(angle) then [Down] else []
  }

  /** The band each angle falls in, in order, with dead-zone angles dropped. */
  function Hits(angles: seq<real>): seq<Phase>
    decreases |angles|
  {
    if angles == [] then []
    else Hits(angles[..|angles| - 1]) + Band(angles[|angles| - 1])
  }

  /** The phase the latches record before any angle arrives. */
  function Start(s: ExerciseState): seq<Phase> {
    if s.downPosition then [Down] else if s.upPosition then [Up] else []
  }

  predicate EndsIn(ps: seq<Phase>, p: Phase) {
    |ps| > 0 && ps[|ps| - 1] == p
  }

  /** How many times a Down is immediately followed by an Up. */
  function DownUps(ps: seq<Phase>): nat
    decreases |ps|
  {
    if |ps| < 2 then 0
    else DownUps(ps[..|ps| - 1]) + (if ps[|ps| - 2] == Down && ps[|ps| - 1] == Up then 1 else 0)
  }

  lemma DownUpsSnoc(ps: seq<Phase>, p: Phase)
    ensures DownUps(ps + [p]) == DownUps(ps) + (if EndsIn(ps, Down) && p == Up then 1 else 0)
  {
    var qs := ps + [p];
    assert qs[..|qs| - 1] == ps;
  }

  /** The phases seen after one more angle: those seen before, then its band. */
  lemma SeenSnoc(s: ExerciseState, angles: seq<real>)
    requires angles != []
    ensures Start(s) + Hits(angles) == (Start(s) + Hits(angles[..|angles| - 1])) + Band(angles[|angles| - 1])
  {
  }

  lemma EndsInSnoc(ps: seq<Phase>, band: seq<Phase>, p: Phase)
    requires |band| <= 1
    ensures EndsIn(ps + band, p) <==> if band == [] then EndsIn(ps, p) else band[0] == p
  {
    if band == [] {
      assert ps + band == ps;
    }
  }

  /** The latches after a frame, in terms of the band of its angle. */
  lemma FrameLatches(s: ExerciseState, angle: real, listening: bool)
    ensures var r := Frame(s, angle, listening).state;
      (Band(angle) == [] ==> r.upPosition == s.upPosition && r.downPosition == s.downPosition)
      && (Band(angle) == [Up] ==> r.upPosition && !r.downPosition)
      && (Band(angle) == [Down] ==> !r.upPosition && r.downPosition)
      && r.reps == if Band(angle) == [Up] && s.downPosition then s.reps + 1 else s.reps
  {
  }

  /** The down latch is set exactly when the last band hit (or the start) is Down. */
  lemma {:induction false} RunDownFlag(s: ExerciseState, angles: seq<real>, listening: bool)
    ensures Run(s, angles, listening).state.downPosition <==> EndsIn(Start(s) + Hits(angles), Down)
    decreases |angles|
  {
    if angles != [] {
      var prefix := angles[..|angles| - 1];
      var x := angles[|angles| - 1];
      RunDownFlag(s, prefix, listening);
      SeenSnoc(s, angles);
      EndsInSnoc(Start(s) + Hits(prefix), Band(x), Down);
      FrameLatches(Run(s, prefix, listening).state, x, listening);
    }
  }

  /** From a state with at most one latch set, the latches are never both set. */
  lemma {:induction false} RunKeepsExclusive(s: ExerciseState, angles: seq<real>, listening: bool)
    requires Exclusive(s)
    ensures Exclusive(Run(s, angles, listening).state)
    decreases |angles|
  {
    if angles != [] {
      RunKeepsExclusive(s, angles[..|angles| - 1], listening);
    }
  }

  /** From a consistent start the up latch is set exactly when the last band hit (or the start) is Up. */
  lemma {:induction false} RunUpFlag(s: ExerciseState, angles: seq<real>, listening: bool)
    requires Exclusive(s)
    ensures Run(s, angles, listening).state.upPosition <==> EndsIn(Start(s) + Hits(angles), Up)
    decreases |angles|
  {
    if angles != [] {
      var prefix := angles[..|angles| - 1];
      var x := angles[|angles| - 1];
      RunUpFlag(s, prefix, listening);
      SeenSnoc(s, angles);
      EndsInSnoc(Start(s) + Hits(prefix), Band(x), Up);
      FrameLatches(Run(s, prefix, listening).state, x, listening);
    }
  }

  /** Repetitions counted over a run are exactly the Down-to-Up transitions of the band hits. */
  lemma {:induction false} RunReps(s: ExerciseState, angles: seq<real>, listening: bool)
    ensures Run(s, angles, listening).state.reps == s.reps + DownUps(Start(s) + Hits(angles))
    decreases |angles|
  {
    if angles != [] {
      var prefix := angles[..|angles| - 1];
      var x := angles[|angles| - 1];
      var before := Start(s) + Hits(prefix);
      RunReps(s, prefix, listening);
      RunDownFlag(s, prefix, listening);
      SeenSnoc(s, angles);
      FrameLatches(Run(s, prefix, listening).state, x, listening);
      if Band(x) == [] {
        assert before + Band(x) == before;
      } else {
        DownUpsSnoc(before, Band(x)[0]);
      }
    }
  }

  /** The count never decreases and grows by at most one per frame. */
  lemma {:induction false} RunRepsBounds(s: ExerciseState, angles: seq<real>, listening: bool)
    ensures s.reps <= Run(s, angles, listening).state.reps <= s.reps + |angles|
    decreases |angles|
  {
    if angles != [] {
      RunRepsBounds(s, angles[..|angles| - 1], listening);
    }
  }

  /** Any number of dead-zone angles changes neither latch nor the count, and emits nothing. */
  lemma {:induction false} DeadZoneRun(s: ExerciseState, angles: seq<real>, listening: bool)
    requires forall i :: 0 <= i < |angles| ==> InDeadZone(angles[i])
    ensures Run(s, angles, listening).events == []
    ensures Run(s, angles, listening).state.(elbowAngle := s.elbowAngle) == s
    decreases |angles|
  {
    if angles != [] {
      DeadZoneRun(s, angles[..|angles| - 1], listening);
    }
  }

  /** 180, 90, 180 from the initial state counts one repetition. */
  lemma ExtendCurlExtendFromRest(angles: seq<real>, listening: bool)
    requires angles == [180.0, 90.0, 180.0]
    ensures Run(Initial, angles, listening).state.reps == 1
  {
    ExtendCurlExtendHits();
    ExtendCurlExtendPairs();
    RunReps(Initial, angles, listening);
    assert Start(Initial) + Hits(angles) == [Up, Down, Up];
  }

  /** 180, 90, 180 from the down latch counts two repetitions: the first sample already
      completes a Down-to-Up transition. */
  lemma ExtendCurlExtendFromDown(angles: seq<real>, listening: bool)
    requires angles == [180.0, 90.0, 180.0]
    ensures Run(Initial.(downPosition := true), angles, listening).state.reps == 2
  {
    ExtendCurlExtendHits();
    ExtendCurlExtendPairs();
    RunReps(Initial.(downPosition := true), angles, listening);
    assert Start(Initial.(downPosition := true)) + Hits(angles) == [Down, Up, Down, Up];
  }

  lemma ExtendCurlExtendPairs()
    ensures DownUps([Up, Down, Up]) == 1
    ensures DownUps([Down, Up, Down, Up]) == 2
  {
    assert [Up, Down, Up][..2] == [Up, Down];
    assert [Up, Down][..1] == [Up];
    assert [Down, Up, Down, Up][..3] == [Down, Up, Down];
    assert [Down, Up, Down][..2] == [Down, Up];
  }

  lemma ExtendCurlExtendHits()
    ensures Hits([180.0, 90.0, 180.0]) == [Up, Down, Up]
  {
    assert Band(180.0) == [Up] && Band(90.0) == [Down];
    assert [180.0][..0] == [];
    assert [180.0, 90.0][..1] == [180.0];
    assert [180.0, 90.0, 180.0][..2] == [180.0, 90.0];
  }

  /** 180, 180, 90, 90, 180 from the down latch: the held samples add nothing, and the two
      Down-to-Up transitions (the start and the end) count two repetitions. */
  lemma HoldCurlHoldExtend(angles: seq<real>, listening: bool)
    requires angles == [180.0, 180.0, 90.0, 90.0, 180.0]
    ensures Run(Initial.(downPosition := true), angles, listening).state.reps == 2
  {
    HoldCurlHoldExtendPhases();
    DownUpsExample();
    RunReps(Initial.(downPosition := true), angles, listening);
  }

  lemma HoldCurlHoldExtendPhases()
    ensures Start(Initial.(downPosition := true)) + Hits([180.0, 180.0, 90.0, 90.0, 180.0])
            == [Down, Up, Up, Down, Down, Up]
  {
    HoldCurlHoldExtendHits();
  }

  lemma HoldCurlHoldExtendHits()
    ensures Hits([180.0, 180.0, 90.0, 90.0, 180.0]) == [Up, Up, Down, Down, Up]
  {
    assert Band(180.0) == [Up] && Band(90.0) == [Down];
    assert [180.0][..0] == [];
    assert [180.0, 180.0][..1] == [180.0];
    assert [180.0, 180.0, 90.0][..2] == [180.0, 180.0];
    assert [180.0, 180.0, 90.0, 90.0][..3] == [180.0, 180.0, 90.0];
    assert [180.0, 180.0, 90.0, 90.0, 180.0][..4] == [180.0, 180.0, 90.0, 90.0];
  }

  lemma DownUpsExample()
    ensures DownUps([Down, Up, Up, Down, Down, Up]) == 2
  {
    DownUpsSnoc([Down], Up);
    DownUpsSnoc([Down, Up], Up);
    DownUpsSnoc([Down, Up, Up], Down);
    DownUpsSnoc([Down, Up, Up, Down], Down);
    DownUpsSnoc([Down, Up, Up, Down, Down], Up);
    assert [Down] + [Up] == [Down, Up];
    assert [Down, Up] + [Up] == [Down, Up, Up];
    assert [Down, Up, Up] + [Down] == [Down, Up, Up, Down];
    assert [Down, Up, Up, Down] + [Down] == [Down, Up, Up, Down, Down];
    assert [Down, Up, Up, Down, Down] + [Up] == [Down, Up, Up, Down, Down, Up];
  }

  // ---- Posture ----

  /** The back is flagged unless its angle is below 20 or above 160 degrees. */
  predicate Flagged(backAngle: real) {
    !(backAngle < 20.0 || backAngle > 160.0)
  }

  /** updateBackAngle after the sample is taken: store it, flag the back, warn the first time only. */
  function Posture(s: ExerciseState, backAngle: real): (r: Step)
    ensures r.state.backAngle == backAngle
    ensures r.state.highlightBack <==> Flagged(backAngle)
    ensures r.state.backWarningGiven <==> s.backWarningGiven || r.state.highlightBack
    ensures r.state.(backAngle := s.backAngle, highlightBack := s.highlightBack,
                     backWarningGiven := s.backWarningGiven) == s
    ensures r.events == if r.state.backWarningGiven && !s.backWarningGiven then [Logged(BACK_WARNING)] else []
  {
    if !Flagged(backAngle) then
      Step(s.(backAngle := backAngle, highlightBack := false), [])
    else if !s.backWarningGiven then
      Step(s.(backAngle := backAngle, highlightBack := true, backWarningGiven := true), [Logged(BACK_WARNING)])
    else
      Step(s.(backAngle := backAngle, highlightBack := true), [])
  }

  function PostureRun(s: ExerciseState, backAngles: seq<real>): Step
    decreases |backAngles|
  {
    if backAngles == [] then Step(s, [])
    else
      var before := PostureRun(s, backAngles[..|backAngles| - 1]);
      var last := Posture(before.state, backAngles[|backAngles| - 1]);
      Step(last.state, before.events + last.events)
  }

  function Count(events: seq<Event>, e: Event): nat
    decreases |events|
  {
    if events == [] then 0
    else Count(events[..|events| - 1], e) + (if events[|events| - 1] == e then 1 else 0)
  }

  lemma {:induction false} CountAppend(a: seq<Event>, b: seq<Event>, e: Event)
    ensures Count(a + b, e) == Count(a, e) + Count(b, e)
    decreases |b|
  {
    if b != [] {
      var b' := b[..|b| - 1];
      assert (a + b)[..|a + b| - 1] == a + b';
      assert (a + b)[|a + b| - 1] == b[|b| - 1];
      CountAppend(a, b', e);
    } else {
      assert a + b == a;
    }
  }

  /** The warning latch is set once some sample was flagged and is never cleared;
      the warning is logged at most once over any sequence of back angles. */
  lemma {:induction false} PostureWarnsOnce(s: ExerciseState, backAngles: seq<real>)
    ensures var r := PostureRun(s, backAngles);
      (r.state.backWarningGiven <==>
         s.backWarningGiven || exists i :: 0 <= i < |backAngles| && Flagged(backAngles[i]))
      && Count(r.events, Logged(BACK_WARNING)) ==
         (if r.state.backWarningGiven && !s.backWarningGiven then 1 else 0)
    decreases |backAngles|
  {
    if backAngles != [] {
      var prefix := backAngles[..|backAngles| - 1];
      var x := backAngles[|backAngles| - 1];
      PostureWarnsOnce(s, prefix);
      var before := PostureRun(s, prefix);
      var last := Posture(before.state, x);
      CountAppend(before.events, last.events, Logged(BACK_WARNING));
      assert Count(last.events, Logged(BACK_WARNING)) == |last.events| by {
        if last.events != [] {
          assert last.events[..0] == [];
        }
      }
      if exists i :: 0 <= i < |prefix| && Flagged(prefix[i]) {
        var i :| 0 <= i < |prefix| && Flagged(prefix[i]);
        assert backAngles[i] == prefix[i];
      }
      if Flagged(x) {
        assert Flagged(backAngles[|backAngles| - 1]);
      }
      if exists i :: 0 <= i < |backAngles| && Flagged(backAngles[i]) {
        var i :| 0 <= i < |backAngles| && Flagged(backAngles[i]);
        if i < |prefix| {
          assert prefix[i] == backAngles[i];
        }
      }
    }
  }
}
