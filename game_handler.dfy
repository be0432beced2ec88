/** `GameHandler` (the same in both versions): it posts frame and shutdown messages to
    the game thread's looper and dispatches them there. A frame message carries its
    64-bit timestamp split into the two 32-bit `int` arguments of an Android `Message`.
    Values are 64-bit words: a `long` as its two's-complement bits, and an `int` as the
    `long` it widens to (its low 32 bits, with bit 31 copied into the upper half). */
module Handler {
  import opened Java
  import opened FrameLoop

  const MSG_DO_FRAME: int := 0
  const MSG_SHUTDOWN: int := 1

  const LOW_HALF: bv64 := 0xFFFF_FFFF
  const INT_SIGN: bv64 := 0x8000_0000

  /** The arithmetic right shift of a `long` by 32: the upper half, with the sign bit
      copied in from the left. */
  function ShiftRight32(x: bv64): bv64 {
    ((x >> 32) ^ INT_SIGN) - INT_SIGN
  }

  /** `(int) x`, widened back to a `long`: the low half of `x`, sign-extended. */
  function IntCast(x: bv64): bv64 {
    ((x & LOW_HALF) ^ INT_SIGN) - INT_SIGN
  }

  /** The arithmetic shift keeps the upper half in the lower one and fills the upper
      half with copies of the sign bit. */
  lemma ShiftRight32Bits(x: bv64)
    ensures ShiftRight32(x) & LOW_HALF == x >> 32
    ensures x >> 63 == 0 ==> ShiftRight32(x) >> 32 == 0
    ensures x >> 63 == 1 ==> ShiftRight32(x) >> 32 == LOW_HALF
  {
  }

  /** The cast keeps the low half and fills the upper half with copies of bit 31. */
  lemma IntCastBits(x: bv64)
    ensures IntCast(x) & LOW_HALF == x & LOW_HALF
    ensures x & INT_SIGN == 0 ==> IntCast(x) >> 32 == 0
    ensures x & INT_SIGN != 0 ==> IntCast(x) >> 32 == LOW_HALF
  {
  }

  /** A value that is already an `int` is left as it is by the cast. */
  lemma IntCastIdempotent(x: bv64)
    ensures IntCast(IntCast(x)) == IntCast(x)
  {
  }

  /** An Android `Message`: its code and its two `int` arguments. */
  datatype Message = Message(what: int, arg1: bv64, arg2: bv64)

  /** The message `sendDoFrame(t)` posts: the upper and the lower 32 bits of `t`, each
      read as an `int`. */
  function FrameMessage(t: bv64): (m: Message)
    ensures m.what == MSG_DO_FRAME
    ensures IntCast(m.arg1) == m.arg1 && IntCast(m.arg2) == m.arg2
  {
    IntCastIdempotent(ShiftRight32(t));
    IntCastIdempotent(t);
    Message(MSG_DO_FRAME, IntCast(ShiftRight32(t)), IntCast(t))
  }

  /** The message `sendShutdown()` posts: `obtainMessage(MSG_SHUTDOWN)`, with both
      arguments left at 0. */
  function ShutdownMessage(): (m: Message)
    ensures m.what == MSG_SHUTDOWN && m.what != MSG_DO_FRAME
  {
    Message(MSG_SHUTDOWN, 0, 0)
  }

  /** The timestamp `handleMessage` rebuilds: the first argument as the upper half and
      the lower 32 bits of the second as the lower half. */
  function Timestamp(m: Message): bv64 {
    (m.arg1 << 32) | (m.arg2 & LOW_HALF)
  }

  /** Splitting a timestamp into a frame message and joining it again gives it back,
      for every 64-bit value. */
  lemma {:induction false} TimestampRoundTrip(t: bv64)
    ensures Timestamp(FrameMessage(t)) == t
  {
    ShiftRight32Bits(t);
    IntCastBits(t);
    IntCastBits(ShiftRight32(t));
  }

  /** The `long` whose bits the word holds. */
  function LongOf(w: bv64): Long {
    if w as int <= LONG_MAX then w as int else w as int - TWO_64
  }

  /** What handling a message did: nothing (no game thread), a frame step and the panel
      calls it made, a shutdown, or the `RuntimeException` for an unknown code. */
  datatype Outcome = Ignored | Framed(timestamp: Long, calls: seq<PanelCall>) | ShutDown | Unknown(what: int)

  class GameHandler {
    const thread: GameThread?              // mGameThread
    /** The messages this handler has posted to its looper, oldest first. */
    var sent: seq<Message>

    /** `new GameHandler(looper, gameThread)`. */
    constructor (thread: GameThread?)
      ensures this.thread == thread && sent == []
    {
      this.thread := thread;
      sent := [];
    }

    /** `sendDoFrame(frameTimeNanos)`: the frame message for the timestamp is posted. */
    method SendDoFrame(frameTimeNanos: bv64)
      modifies this`sent
      ensures sent == old(sent) + [FrameMessage(frameTimeNanos)]
    {
      sent := sent + [FrameMessage(frameTimeNanos)];
    }

    /** `sendShutdown()`: the shutdown message is posted. */
    method SendShutdown()
      modifies this`sent
      ensures sent == old(sent) + [ShutdownMessage()]
    {
      sent := sent + [ShutdownMessage()];
    }

    /** `handleMessage(msg)`, with the clock reading and the canvas of a frame step as
        parameters. Without a game thread nothing happens. Code 0 runs the thread's
        `doFrame` on the rebuilt timestamp, code 1 its `shutdown`, and any other code
        fails. */
    method HandleMessage(msg: Message, now: Long, canvas: bool) returns (outcome: Outcome)
      modifies Thread(thread)`prevTimeNanos, Thread(thread)`quit
      ensures thread == null ==> outcome == Ignored
      ensures thread != null && msg.what == MSG_DO_FRAME ==>
        && outcome.Framed? && outcome.timestamp == LongOf(Timestamp(msg)) && thread.prevTimeNanos == outcome.timestamp
        && |outcome.calls| >= 1 && |outcome.calls| <= 2
        && outcome.calls[0] == UpdateCall(FrameInterval(old(thread.prevTimeNanos), outcome.timestamp) as real / ONE_SECOND_NANOS as real)
        && (forall k :: 1 <= k < |outcome.calls| ==> outcome.calls[k] == RenderCall)
        && (|outcome.calls| == 2 <==> RenderDue(outcome.timestamp, now) && canvas)
        && thread.quit == old(thread.quit)
      ensures thread != null && msg.what == MSG_SHUTDOWN ==>
        outcome == ShutDown && thread.quit && thread.prevTimeNanos == old(thread.prevTimeNanos)
      ensures thread != null && msg.what != MSG_DO_FRAME && msg.what != MSG_SHUTDOWN ==>
        outcome == Unknown(msg.what) && thread.quit == old(thread.quit) && thread.prevTimeNanos == old(thread.prevTimeNanos)
    {
      if thread == null {
        return Ignored;
      }
      assert thread in Thread(thread);
      match msg.what {
        case 0 =>
          var timestamp := LongOf(Timestamp(msg));
          var calls := thread.DoFrame(timestamp, now, canvas);
          outcome := Framed(timestamp, calls);
        case 1 =>
          thread.Shutdown();
          outcome := ShutDown;
        case _ =>
          outcome := Unknown(msg.what);
      }
    }
  }

  /** The game thread the handler holds, as a list: empty when it holds none. */
  function Thread(t: GameThread?): (r: seq<GameThread>)
    ensures t != null <==> r == [t]
    ensures t == null <==> r == []
  {
    if t == null then [] else [t]
  }

  /** A frame message carries its timestamp to the game thread: handling the message
      `sendDoFrame(t)` posts runs `doFrame` on the `long` that `t` holds. */
  lemma FrameMessageDelivers(t: bv64)
    ensures LongOf(Timestamp(FrameMessage(t))) == LongOf(t)
    ensures FrameMessage(t).what == MSG_DO_FRAME
  {
    TimestampRoundTrip(t);
  }
}
