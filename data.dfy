// Value types shared by the camera pipeline: detector output, bitmaps, the
// foreign components and the events the pipeline emits.
module Data {

  datatype Option<+T> = None | Some(value: T)

  /** The seventeen landmarks the pose detector scores. */
  datatype BodyPart =
    | Nose | LeftEye | RightEye | LeftEar | RightEar
    | LeftShoulder | RightShoulder | LeftElbow | RightElbow
    | LeftWrist | RightWrist | LeftHip | RightHip
    | LeftKnee | RightKnee | LeftAnkle | RightAnkle

  datatype Point = Point(x: real, y: real)

  /** One detected landmark: which part, where in the image, and the detector's confidence. */
  datatype KeyPoint = KeyPoint(bodyPart: BodyPart, coordinate: Point, score: real)

  /** One detected body for one frame. The tracker id and bounding box only feed drawing. */
  datatype Person = Person(keyPoints: seq<KeyPoint>, score: real)

  /** A bitmap dimension; the camera always delivers a 480 x 640 image. */
  type Dim = n: int | n > 0 witness 1

  datatype Bitmap = Bitmap(width: Dim, height: Dim)

  /** The locked drawing surface of the preview. */
  datatype Canvas = Canvas(width: nat, height: nat)

  datatype Rect = Rect(left: int, top: int, right: int, bottom: int)

  /** Opaque handles on the foreign pose detector and pose classifier. */
  datatype Detector = Detector(id: nat)
  datatype Classifier = Classifier(id: nat)

  datatype Label = Label(name: string, score: real)

  /** What leaves the pipeline: listener calls, log lines, component releases and draws. */
  datatype Event =
    | FpsReported(fps: nat)                                   // listener.onFPSListener
    | DetectedInfo(personScore: real, poseLabels: Option<seq<Label>>)  // listener.onDetectedInfo
    | Spoken(text: string)                                    // listener.onTTS
    | Logged(message: string)                                 // Log.d
    | DetectorClosed(detector: Detector)                      // PoseDetector.close
    | ClassifierClosed(classifier: Classifier)                // PoseClassifier.close
    | Drawn(source: Rect, destination: Rect)                  // Canvas.drawBitmap
}
