/** The frames-per-second counter (Willow/FrameRateComponent.cs): every drawn
    frame adds its elapsed time and counts itself; once a second has gathered
    the count is published as the rate and restarted. The counters are
    `float` in the source and reals here. */
module FrameRates {

  /** The three fields of the component. */
  datatype Counter = Counter(deltaTime: real, frameCount: real, frameRate: real)

  /** Whether the frame taking `elapsed` seconds closes a second. */
  predicate RollsOver(c: Counter, elapsed: real) {
    c.deltaTime + elapsed >= 1.0
  }

  /** The counter after one frame: accumulate and count; on reaching a second,
      publish the count (including this frame), restart it and take exactly
      one second off the accumulator. */
  function Drawn(c: Counter, elapsed: real): Counter {
    var d := c.deltaTime + elapsed;
    var n := c.frameCount + 1.0;
    if d >= 1.0 then Counter(d - 1.0, 0.0, n) else Counter(d, n, c.frameRate)
  }

  /** The counter after a run of frames, the earliest first. */
  function DrawnAll(c: Counter, frames: seq<real>): Counter
    decreases |frames|
  {
    if frames == [] then c else DrawnAll(Drawn(c, frames[0]), frames[1..])
  }

  function Total(frames: seq<real>): real
    decreases |frames|
  {
    if frames == [] then 0.0 else frames[0] + Total(frames[1..])
  }

  /** How many seconds a run of frames closes. */
  function Rollovers(c: Counter, frames: seq<real>): nat
    decreases |frames|
  {
    if frames == [] then 0
    else (if RollsOver(c, frames[0]) then 1 else 0) + Rollovers(Drawn(c, frames[0]), frames[1..])
  }

  /** The rates published over a run of frames, added up. */
  function Published(c: Counter, frames: seq<real>): real
    decreases |frames|
  {
    if frames == [] then 0.0
    else (if RollsOver(c, frames[0]) then c.frameCount + 1.0 else 0.0) + Published(Drawn(c, frames[0]), frames[1..])
  }

  /** No time is lost: the accumulator ends at its start plus every frame's
      time, less one second per published rate. */
  lemma {:induction false} TimeConserved(c: Counter, frames: seq<real>)
    ensures DrawnAll(c, frames).deltaTime == c.deltaTime + Total(frames) - Rollovers(c, frames) as real
    decreases |frames|
  {
    if frames != [] {
      TimeConserved(Drawn(c, frames[0]), frames[1..]);
    }
  }

  /** No frame is lost: every frame is either still in the running count or
      part of exactly one published rate. */
  lemma {:induction false} FramesConserved(c: Counter, frames: seq<real>)
    ensures DrawnAll(c, frames).frameCount + Published(c, frames) == c.frameCount + |frames| as real
    decreases |frames|
  {
    if frames != [] {
      FramesConserved(Drawn(c, frames[0]), frames[1..]);
    }
  }

  /** While frames take at most a second each, the accumulator stays in
      [0, 1). */
  lemma {:induction false} ShortFramesStayBelowOne(c: Counter, frames: seq<real>)
    requires 0.0 <= c.deltaTime < 1.0
    requires forall i :: 0 <= i < |frames| ==> 0.0 <= frames[i] <= 1.0
    ensures 0.0 <= DrawnAll(c, frames).deltaTime < 1.0
    decreases |frames|
  {
    if frames != [] {
      ShortFramesStayBelowOne(Drawn(c, frames[0]), frames[1..]);
    }
  }

  /** Only one second is taken off per frame, so a frame longer than two
      seconds leaves the accumulator at one second or more, and the next
      frame publishes again at once. */
  lemma LongFrameLeavesBacklog(c: Counter, elapsed: real)
    requires c.deltaTime >= 0.0 && elapsed >= 2.0
    ensures Drawn(c, elapsed).deltaTime >= 1.0
    ensures RollsOver(Drawn(c, elapsed), 0.0)
  {
  }

  /** The published rate changes only when a second closes. */
  lemma RateChangesOnlyOnRollover(c: Counter, elapsed: real)
    ensures Drawn(c, elapsed).frameRate != c.frameRate ==> RollsOver(c, elapsed)
    ensures RollsOver(c, elapsed) ==> Drawn(c, elapsed).frameCount == 0.0
  {
  }

  class FrameRate {
    var deltaTime: real
    var frameCount: real
    var frameRate: real

    /** All counters start at zero. */
    constructor ()
      ensures State() == Counter(0.0, 0.0, 0.0)
    {
      deltaTime, frameCount, frameRate := 0.0, 0.0, 0.0;
    }

    function State(): Counter
      reads this
    {
      Counter(deltaTime, frameCount, frameRate)
    }

    /** The last published rate. */
    function FPS(): real
      reads this
    {
      frameRate
    }

    method Draw(elapsed: real)
      modifies this
      ensures State() == Drawn(old(State()), elapsed)
    {
      deltaTime := deltaTime + elapsed;
      frameCount := frameCount + 1.0;
      if deltaTime >= 1.0 {
        frameRate := frameCount;
        frameCount := 0.0;
        deltaTime := deltaTime - 1.0;
      }
    }
  }
}
