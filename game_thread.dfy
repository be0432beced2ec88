/** The older `GameThread`'s frame step `doFrame(timeStampNanos)`: the time since the
    previous frame, in nanoseconds, is handed to the panel's `update` (as seconds), and
    the frame is rendered unless the step ran too long or no canvas could be locked.
    The looper, the start lock and the drawing itself are outside the model; the panel
    calls are returned in order. */
module FrameLoop {
  import opened Java

  const ONE_SECOND_NANOS: int := 1_000_000_000
  /** The target frame rate: a second in nanoseconds over 60 (integer division), times a
      second in nanoseconds again, as the `long` arithmetic computes it. */
  const TARGET_FRAME_RATE: int := ONE_SECOND_NANOS / 60 * ONE_SECOND_NANOS

  /** A call the step makes on the panel: `update(deltaTime)` with the interval in
      seconds, or `render(canvas)`. */
  datatype PanelCall = UpdateCall(seconds: real) | RenderCall

  /** The interval `doFrame` computes: 0 on the first frame (no previous time yet),
      otherwise the `long` difference, dropped to 0 when it exceeds one second. */
  function FrameInterval(prev: Long, ts: Long): (interval: Long)
    ensures interval <= ONE_SECOND_NANOS
    ensures prev == 0 ==> interval == 0
  {
    if prev == 0 then 0
    else
      var d := WrapLong(ts - prev);
      if d > ONE_SECOND_NANOS then 0 else d
  }

  /** Whether the render goes ahead after the update, started at `ts` and finished at
      `now` (both `System.nanoTime()` readings). */
  predicate RenderDue(ts: Long, now: Long) {
    WrapLong(now - ts) <= TARGET_FRAME_RATE
  }

  /** The render-skip bound is 16,666,666 seconds written in nanoseconds (not a
      sixtieth of a second), and the `long` product that makes it does not overflow. */
  lemma TargetFrameRate()
    ensures TARGET_FRAME_RATE == 16_666_666_000_000_000
    ensures TARGET_FRAME_RATE <= LONG_MAX
  {
  }

  /** When the clock difference does not overflow, a frame is skipped exactly when its
      update took more than 16,666,666 seconds (over 192 days): an update that takes a
      full second still renders. */
  lemma RenderAlmostAlwaysDue(ts: Long, now: Long)
    requires LONG_MIN <= now - ts <= LONG_MAX
    ensures RenderDue(ts, now) <==> now - ts <= TARGET_FRAME_RATE
    ensures now - ts <= ONE_SECOND_NANOS ==> RenderDue(ts, now)
  {
  }

  /** The cases of the interval: the first frame gives 0; after that a gap of more than
      one second gives 0, a gap of exactly one second is kept, and so is a negative one
      (the clock is not checked to move forward). */
  lemma FrameIntervalCases(prev: Long, ts: Long)
    ensures FrameInterval(0, ts) == 0
    ensures prev != 0 && LONG_MIN <= ts - prev <= LONG_MAX ==>
      && (ts - prev > ONE_SECOND_NANOS ==> FrameInterval(prev, ts) == 0)
      && (ts - prev <= ONE_SECOND_NANOS ==> FrameInterval(prev, ts) == ts - prev)
    ensures prev != 0 && ts - prev == ONE_SECOND_NANOS ==> FrameInterval(prev, ts) == ONE_SECOND_NANOS
    ensures prev != 0 && LONG_MIN <= ts - prev < 0 ==> FrameInterval(prev, ts) == ts - prev
  {
  }

  class GameThread {
    var prevTimeNanos: Long                // mPrevTimeNanos
    /** Whether `shutdown()` has quit the thread's looper. */
    var quit: bool

    /** `new GameThread(gamePanel)`: no frame seen yet. */
    constructor ()
      ensures prevTimeNanos == 0 && !quit
    {
      prevTimeNanos := 0;
      quit := false;
    }

    /** `doFrame(ts)`, where `now` is the time read after the update and `canvas` whether
        the surface's canvas could be locked. The previous time becomes `ts`; the panel's
        `update` is called exactly once, first, with the interval in seconds; then
        `render` is called once if the frame is due and a canvas is there. */
    method DoFrame(ts: Long, now: Long, canvas: bool) returns (calls: seq<PanelCall>)
      modifies this`prevTimeNanos
      ensures prevTimeNanos == ts
      ensures |calls| >= 1 && calls[0] == UpdateCall(FrameInterval(old(prevTimeNanos), ts) as real / ONE_SECOND_NANOS as real)
      ensures forall k :: 1 <= k < |calls| ==> calls[k] == RenderCall
      ensures |calls| == 2 <==> RenderDue(ts, now) && canvas
      ensures |calls| <= 2
    {
      var intervalNanos: Long;
      if prevTimeNanos == 0 {
        intervalNanos := 0;
      } else {
        intervalNanos := WrapLong(ts - prevTimeNanos);
        if intervalNanos > ONE_SECOND_NANOS {
          intervalNanos := 0;
        }
      }
      prevTimeNanos := ts;
      calls := [UpdateCall(intervalNanos as real / ONE_SECOND_NANOS as real)];
      var deltaTimeStamp := WrapLong(now - ts);
      if deltaTimeStamp > TARGET_FRAME_RATE {
        return;
      }
      if !canvas {
        return;
      }
      calls := calls + [RenderCall];
    }

    /** `shutdown()`: the looper quits. */
    method Shutdown()
      modifies this`quit
      ensures quit
    {
      quit := true;
    }
  }
}
