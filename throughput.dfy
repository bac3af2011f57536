// The frames-per-second bookkeeping: processImage counts frames, a one-second
// timer task copies the count into the reported rate and zeroes it.
module Throughput {
  import opened Data

  /** frameProcessedInOneSecondInterval and framesPerSecond. */
  datatype Counter = Counter(frames: nat, fps: nat)

  datatype Counted = Counted(counter: Counter, events: seq<Event>)

  /** processImage's count: the frame that makes the count 1 reports the last window's rate. */
  function CountFrame(c: Counter, listening: bool): (r: Counted)
    ensures r.counter.frames == c.frames + 1 && r.counter.fps == c.fps
    ensures r.events == if r.counter.frames == 1 && listening then [FpsReported(c.fps)] else []
  {
    var frames := c.frames + 1;
    Counted(c.(frames := frames), if frames == 1 && listening then [FpsReported(c.fps)] else [])
  }

  /** The timer task started by resume: the count becomes the rate and restarts from zero. */
  function Tick(c: Counter): (r: Counter)
    ensures r.frames == 0 && r.fps == c.frames
  {
    Counter(0, c.frames)
  }

  /** n frames in a row, with no tick in between. */
  function CountFrames(c: Counter, n: nat, listening: bool): Counted
    decreases n
  {
    if n == 0 then Counted(c, [])
    else
      var before := CountFrames(c, n - 1, listening);
      var last := CountFrame(before.counter, listening);
      Counted(last.counter, before.events + last.events)
  }

  lemma {:induction false} CountFramesEffect(c: Counter, n: nat, listening: bool)
    ensures CountFrames(c, n, listening).counter == Counter(c.frames + n, c.fps)
    ensures CountFrames(c, n, listening).events ==
      if c.frames == 0 && n > 0 && listening then [FpsReported(c.fps)] else []
    decreases n
  {
    if n > 0 {
      CountFramesEffect(c, n - 1, listening);
    }
  }

  /** Between two ticks the rate is reported once, on the first frame, and it is the previous window's count;
      the next tick reports exactly the frames of this window. */
  lemma OneReportPerWindow(c: Counter, n: nat, listening: bool)
    ensures CountFrames(Tick(c), n, listening).events ==
      if n > 0 && listening then [FpsReported(c.frames)] else []
    ensures Tick(CountFrames(Tick(c), n, listening).counter).fps == n
  {
    CountFramesEffect(Tick(c), n, listening);
  }
}
