// The last-seen keypoint fields of the camera source and the confidence gate
// that decides which arm (or neither) supplies the elbow angle.
module KeyPoints {
  import opened Data
  import opened KotlinMath

  /** A keypoint is used for an angle only when its score is above this. */
  const MIN_SCORE: real := 0.3

  /** The nine parts the camera source keeps a last-seen keypoint for. */
  const TRACKED: set<BodyPart> :=
    {LeftWrist, LeftShoulder, LeftElbow, RightWrist, RightShoulder, RightElbow, LeftHip, LeftKnee, Nose}

  /** The `lateinit` keypoint fields: a part is in the map once its field has been assigned. */
  type Store = map<BodyPart, KeyPoint>

  predicate WellFormed(store: Store) {
    forall p :: p in store ==> p in TRACKED && store[p].bodyPart == p
  }

  /** The trigonometry of one joint: the angle at the middle point between the two outer ones, in degrees. */
  type JointAngle = (Point, Point, Point) -> real

  // ---- capture ----

  /** One pass of the inner forEach: a tracked part overwrites its field. */
  function Record(store: Store, point: KeyPoint): Store {
    if point.bodyPart in TRACKED then store[point.bodyPart := point] else store
  }

  /** The keypoints of all persons, person by person, in order. */
  function Flatten(persons: seq<Person>): seq<KeyPoint>
    decreases |persons|
  {
    if persons == [] then []
    else Flatten(persons[..|persons| - 1]) + persons[|persons| - 1].keyPoints
  }

  /** Every keypoint recorded in order. */
  function Capture(store: Store, points: seq<KeyPoint>): Store
    decreases |points|
  {
    if points == [] then store
    else Record(Capture(store, points[..|points| - 1]), points[|points| - 1])
  }

  /** Capturing keeps only tracked parts, each under its own name, and never unsets a field. */
  lemma {:induction false} CaptureWellFormed(store: Store, points: seq<KeyPoint>)
    ensures WellFormed(store) ==> WellFormed(Capture(store, points))
    ensures store.Keys <= Capture(store, points).Keys
    decreases |points|
  {
    if points != [] {
      CaptureWellFormed(store, points[..|points| - 1]);
    }
  }

  /** Capturing two lists of keypoints in turn is capturing their concatenation. */
  lemma {:induction false} CaptureAppend(store: Store, first: seq<KeyPoint>, second: seq<KeyPoint>)
    ensures Capture(store, first + second) == Capture(Capture(store, first), second)
    decreases |second|
  {
    if second == [] {
      assert first + second == first;
    } else {
      var prefix := second[..|second| - 1];
      var last := second[|second| - 1];
      var both := first + second;
      assert both[..|both| - 1] == first + prefix;
      assert both[|both| - 1] == last;
      var inner := Capture(store, first + prefix);
      assert Capture(store, both) == Record(inner, last);
      CaptureAppend(store, first, prefix);
      assert inner == Capture(Capture(store, first), prefix);
    }
  }

  /** A field whose part never appears (or is not tracked) keeps its old value, or stays unset. */
  lemma {:induction false} CaptureUntouched(store: Store, points: seq<KeyPoint>, part: BodyPart)
    requires part !in TRACKED || forall i :: 0 <= i < |points| ==> points[i].bodyPart != part
    ensures part in Capture(store, points) <==> part in store
    ensures part in store ==> Capture(store, points)[part] == store[part]
    decreases |points|
  {
    if points != [] {
      var prefix := points[..|points| - 1];
      assert forall i :: 0 <= i < |prefix| ==> prefix[i] == points[i];
      CaptureUntouched(store, prefix, part);
    }
  }

  /** A tracked field holds the last keypoint of its part. */
  lemma {:induction false} CaptureKeepsLast(store: Store, points: seq<KeyPoint>, part: BodyPart, i: nat)
    requires i < |points| && points[i].bodyPart == part && part in TRACKED
    requires forall j :: i < j < |points| ==> points[j].bodyPart != part
    ensures part in Capture(store, points) && Capture(store, points)[part] == points[i]
    decreases |points|
  {
    if i < |points| - 1 {
      var prefix := points[..|points| - 1];
      assert forall j :: i < j < |prefix| ==> prefix[j] == points[j];
      CaptureKeepsLast(store, prefix, part, i);
    }
  }

  // ---- confidence gate ----

  /** Reading `x.score` of a `lateinit` field: an unset field throws. */
  datatype Access<T> = Ok(value: T) | Unset(part: BodyPart)

  function Confident(store: Store, part: BodyPart): Access<bool> {
    if part in store then Ok(store[part].score > MIN_SCORE) else Unset(part)
  }

  /** All three keypoints are set and scored above the threshold. */
  predicate Ready(store: Store, a: BodyPart, b: BodyPart, c: BodyPart) {
    a in store && b in store && c in store
    && store[a].score > MIN_SCORE && store[b].score > MIN_SCORE && store[c].score > MIN_SCORE
  }

  /** The short-circuit chain reads `a`, then `b` only if `a` passed, then `c` only if `b` passed:
      it completes iff every field it reaches is set. */
  predicate Readable(store: Store, a: BodyPart, b: BodyPart, c: BodyPart) {
    a in store
    && (store[a].score > MIN_SCORE ==> b in store && (store[b].score > MIN_SCORE ==> c in store))
  }

  /** `a.score > 0.3 && b.score > 0.3 && c.score > 0.3`, short-circuit, left to right. */
  function AllConfident(store: Store, a: BodyPart, b: BodyPart, c: BodyPart): (r: Access<bool>)
    ensures r.Ok? <==> Readable(store, a, b, c)
    ensures r == Ok(true) <==> Ready(store, a, b, c)
    ensures r.Unset? ==> r.part == if a !in store then a else if b !in store then b else c
    ensures r.Unset? ==> r.part !in store && (r.part == a || r.part == b || r.part == c)
    ensures a in store && b in store && c in store ==> r.Ok?
  {
    match Confident(store, a)
    case Unset(p) => Unset(p)
    case Ok(false) => Ok(false)
    case Ok(true) =>
      match Confident(store, b)
      case Unset(p) => Unset(p)
      case Ok(false) => Ok(false)
      case Ok(true) => Confident(store, c)
  }

  function Angle(store: Store, a: BodyPart, vertex: BodyPart, b: BodyPart, jointAngle: JointAngle): real
    requires a in store && vertex in store && b in store
  {
    jointAngle(store[a].coordinate, store[vertex].coordinate, store[b].coordinate)
  }

  /** updateArmAngle: the left arm if it is confidently seen, else the right arm, else the previous angle. */
  function GatedElbowAngle(store: Store, previous: real, jointAngle: JointAngle): (r: Access<real>)
    ensures Ready(store, LeftWrist, LeftElbow, LeftShoulder) ==>
      r == Ok(Angle(store, LeftWrist, LeftElbow, LeftShoulder, jointAngle))
    ensures r.Ok? && !Ready(store, LeftWrist, LeftElbow, LeftShoulder) ==>
      r.value == if Ready(store, RightWrist, RightElbow, RightShoulder)
                 then Angle(store, RightWrist, RightElbow, RightShoulder, jointAngle)
                 else previous
    ensures r.Ok? <==>
      Readable(store, LeftWrist, LeftElbow, LeftShoulder)
      && (Ready(store, LeftWrist, LeftElbow, LeftShoulder) || Readable(store, RightWrist, RightElbow, RightShoulder))
    ensures (LeftWrist in store && LeftElbow in store && LeftShoulder in store
             && RightWrist in store && RightElbow in store && RightShoulder in store) ==> r.Ok?
    ensures r.Unset? ==> r.part !in store
  {
    match AllConfident(store, LeftWrist, LeftElbow, LeftShoulder)
    case Unset(p) => Unset(p)
    case Ok(true) => Ok(Angle(store, LeftWrist, LeftElbow, LeftShoulder, jointAngle))
    case Ok(false) =>
      match AllConfident(store, RightWrist, RightElbow, RightShoulder)
      case Unset(p) => Unset(p)
      case Ok(true) => Ok(Angle(store, RightWrist, RightElbow, RightShoulder, jointAngle))
      case Ok(false) => Ok(previous)
  }

  /** updateBackAngle's sample: the knee-hip-shoulder angle if confidently seen, else its remainder modulo 180. */
  function BackAngleSample(store: Store, jointAngle: JointAngle): (r: Access<real>)
    ensures r.Ok? <==> LeftKnee in store && LeftHip in store && LeftShoulder in store
    ensures r.Unset? ==> r.part !in store
    ensures r.Ok? && Ready(store, LeftKnee, LeftHip, LeftShoulder) ==>
      r.value == Angle(store, LeftKnee, LeftHip, LeftShoulder, jointAngle)
    ensures r.Ok? && !Ready(store, LeftKnee, LeftHip, LeftShoulder) ==>
      -180.0 < r.value < 180.0
      && r.value == Rem180(Angle(store, LeftKnee, LeftHip, LeftShoulder, jointAngle))
  {
    if LeftKnee !in store then Unset(LeftKnee)
    else if LeftHip !in store then Unset(LeftHip)
    else if LeftShoulder !in store then Unset(LeftShoulder)
    else
      var angle := Angle(store, LeftKnee, LeftHip, LeftShoulder, jointAngle);
      var remainder := Rem180(angle);
      Ok(if Ready(store, LeftKnee, LeftHip, LeftShoulder) then angle else remainder)
  }
}
