/*
 * The three NEC channels of IrReceiver.c and the code that drives them:
 * `TIMER0_A0_CCR0_ISR` serves channel A, `TIMER0_A1_ISR` serves B and C
 * through the TA0IV vector, and each pass of `main`'s `while(1)` decodes
 * every completed frame into the global `result`.  Each interrupt and each
 * pass is one atomic step; the capture counts and the vector value, which
 * the firmware reads from Timer_A registers, are parameters.
 */
module IrReceiver {
  import opened MachineTypes
  import opened NecDecode
  import opened IrChannel

  /** TA0IV value for a CCR1 capture (channel B). */
  const VectorCcr1: uint16 := 2
  /** TA0IV value for a CCR2 capture (channel C). */
  const VectorCcr2: uint16 := 4

  /** All receiver globals, as values. */
  datatype ReceiverState = ReceiverState(a: ChannelState, b: ChannelState, c: ChannelState, result: bv32)

  /** Every channel keeps its cursor invariant. */
  predicate ReceiverInv(r: ReceiverState) {
    Inv(r.a) && Inv(r.b) && Inv(r.c)
  }

  predicate WellSized(r: ReceiverState) {
    |r.a.buffer| == CaptureBufferSize && |r.b.buffer| == CaptureBufferSize && |r.c.buffer| == CaptureBufferSize
  }

  /** `TIMER0_A0_CCR0_ISR`: an edge on channel A. */
  function CaptureA(r: ReceiverState, capture: uint16): (r': ReceiverState)
    requires WellSized(r)
  {
    r.(a := EdgeStep(r.a, capture))
  }

  /**
   * `TIMER0_A1_ISR` as written: `case 2` has no `break`, so vector 2 runs the
   * channel B step and then the channel C step; vector 4 runs only C; any
   * other vector does nothing.
   */
  function CaptureBC(r: ReceiverState, vector: uint16, captureB: uint16, captureC: uint16): (r': ReceiverState)
    requires WellSized(r)
  {
    var afterB := if vector == VectorCcr1 then r.(b := EdgeStep(r.b, captureB)) else r;
    if vector == VectorCcr1 || vector == VectorCcr2 then afterB.(c := EdgeStep(afterB.c, captureC)) else afterB
  }

  /** One `if(framecompleteX)` block of the main loop. */
  function Service(ch: ChannelState, result: bv32): (ChannelState, bv32)
    requires |ch.buffer| == CaptureBufferSize
  {
    if ch.frameComplete then (ch.(frameComplete := false, leaderDetected := false), Decoded(ch.buffer))
    else (ch, result)
  }

  /** One pass of the `while(1)` body: channels A, B, C in that order. */
  function DispatchPass(r: ReceiverState): (r': ReceiverState)
    requires WellSized(r)
  {
    var (a, result1) := Service(r.a, r.result);
    var (b, result2) := Service(r.b, result1);
    var (c, result3) := Service(r.c, result2);
    ReceiverState(a, b, c, result3)
  }

  /** Every interrupt keeps every channel's invariant. */
  lemma InterruptsKeepInv(r: ReceiverState, vector: uint16, capture: uint16, captureB: uint16, captureC: uint16)
    requires ReceiverInv(r)
    ensures ReceiverInv(CaptureA(r, capture))
    ensures ReceiverInv(CaptureBC(r, vector, captureB, captureC))
  {
    EdgeStepKeepsInv(r.a, capture);
    EdgeStepKeepsInv(r.b, captureB);
    EdgeStepKeepsInv(r.c, captureC);
  }

  /** Channel A's interrupt touches channel A only. */
  lemma CaptureATouchesAOnly(r: ReceiverState, capture: uint16)
    requires WellSized(r)
    ensures var r' := CaptureA(r, capture);
      r'.b == r.b && r'.c == r.c && r'.result == r.result && r'.a.lastCapture == capture
  {
  }

  /**
   * The fall-through: with vector 2 both B and C take a step, with vector 4
   * only C does, and with any other vector nothing changes.  Channel A and
   * `result` are never touched.
   */
  lemma CaptureBCCases(r: ReceiverState, vector: uint16, captureB: uint16, captureC: uint16)
    requires WellSized(r)
    ensures var r' := CaptureBC(r, vector, captureB, captureC);
      && r'.a == r.a && r'.result == r.result
      && (vector == VectorCcr1 ==> r'.b == EdgeStep(r.b, captureB) && r'.c == EdgeStep(r.c, captureC))
      && (vector == VectorCcr2 ==> r'.b == r.b && r'.c == EdgeStep(r.c, captureC))
      && (vector != VectorCcr1 && vector != VectorCcr2 ==> r' == r)
  {
  }

  /**
   * The hazard the fall-through creates: a B interrupt also runs the C step
   * with whatever CCR2 holds.  If C has had no edge since its last capture,
   * CCR2 still equals `lastCaptureC`, so a 0-tick sample is appended to a
   * frame C is receiving.
   */
  lemma FallThroughRecordsZeroOnC(r: ReceiverState, captureB: uint16)
    requires WellSized(r) && Inv(r.c) && r.c.leaderDetected && r.c.captureIndex < TotalTimings - 1
    ensures var r' := CaptureBC(r, VectorCcr1, captureB, r.c.lastCapture);
      && r'.c.buffer == r.c.buffer[r.c.captureIndex := 0]
      && r'.c.captureIndex == r.c.captureIndex + 1
      && r'.c.leaderDetected
  {
    assert Duration(r.c.lastCapture, r.c.lastCapture) == 0;
    AppendSample(r.c, r.c.lastCapture);
  }

  /**
   * The main-loop pass: afterwards no frame is pending; a completed channel
   * has both flags cleared and nothing else changed; `result` is the decode
   * of the last completed channel in the order A, B, C, and is unchanged
   * when none had completed.
   */
  lemma DispatchPassEffect(r: ReceiverState)
    requires WellSized(r)
    ensures var r' := DispatchPass(r);
      && !r'.a.frameComplete && !r'.b.frameComplete && !r'.c.frameComplete
      && r'.a == (if r.a.frameComplete then r.a.(frameComplete := false, leaderDetected := false) else r.a)
      && r'.b == (if r.b.frameComplete then r.b.(frameComplete := false, leaderDetected := false) else r.b)
      && r'.c == (if r.c.frameComplete then r.c.(frameComplete := false, leaderDetected := false) else r.c)
      && r'.result == (if r.c.frameComplete then Decoded(r.c.buffer)
                       else if r.b.frameComplete then Decoded(r.b.buffer)
                       else if r.a.frameComplete then Decoded(r.a.buffer)
                       else r.result)
  {
  }

  lemma DispatchPassKeepsInv(r: ReceiverState)
    requires ReceiverInv(r)
    ensures ReceiverInv(DispatchPass(r))
  {
  }

  /**
   * A frame received on channel A ends up in `result`: after the edges of a
   * whole frame, the next pass (with B and C idle) stores the value the
   * frame's spaces carry.
   */
  lemma ReceiveOnA(r: ReceiverState, ds: seq<uint16>, v: bv32)
    requires ReceiverInv(r) && !r.b.frameComplete && !r.c.frameComplete
    requires |ds| == TotalTimings && IsLeader(ds[0]) && NoLeader(ds[1..]) && Encodes(ds, v)
    ensures DispatchPass(r.(a := Run(r.a, Timestamps(r.a.lastCapture, ds)))).result == v
  {
    CaptureFrame(r.a, ds);
    CapturedFrameDecodes(r.a, ds, v);
  }

  /**
   * The pass clears `leaderDetected` along with `framecomplete`.  If a new
   * leader had already arrived on that channel (the pass ran late), the new
   * frame is dropped: later non-leader edges store nothing and the cursor
   * stays where it was.
   */
  lemma LatePassAbortsCapture(r: ReceiverState, capture: uint16)
    requires ReceiverInv(r) && r.a.frameComplete && r.a.leaderDetected
    requires !IsLeader(Duration(r.a.lastCapture, capture))
    ensures var r' := CaptureA(DispatchPass(r), capture);
      && !r'.a.leaderDetected && r'.a.buffer == r.a.buffer && r'.a.captureIndex == r.a.captureIndex
  {
  }

  /** The receiver's globals: three channels and `result`. */
  class Receiver {
    const a: Channel
    const b: Channel
    const c: Channel
    var result: bv32

    ghost predicate Valid()
      reads this, a, b, c
    {
      && a.Valid() && b.Valid() && c.Valid()
      && a != b && a != c && b != c
      && a.buffer != b.buffer && a.buffer != c.buffer && b.buffer != c.buffer
    }

    ghost function State(): ReceiverState
      reads this, a, b, c, a.buffer, b.buffer, c.buffer
      requires Valid()
    {
      ReceiverState(a.State(), b.State(), c.State(), result)
    }

    constructor ()
      ensures Valid() && State() == ReceiverState(Reset, Reset, Reset, 0)
      ensures fresh(a) && fresh(b) && fresh(c) && fresh(a.buffer) && fresh(b.buffer) && fresh(c.buffer)
    {
      a := new Channel();
      b := new Channel();
      c := new Channel();
      result := 0;
    }

    /** `TIMER0_A0_CCR0_ISR`, given the CCR0 capture count. */
    method TimerA0Ccr0Isr(capture: uint16)
      requires Valid()
      modifies a, a.buffer
      ensures Valid() && State() == CaptureA(old(State()), capture)
    {
      a.OnEdge(capture);
    }

    /**
     * `TIMER0_A1_ISR`, given TA0IV and the CCR1 and CCR2 capture counts.
     * Entering at `case 2` runs into `case 4`, as the missing `break` does.
     */
    method TimerA0A1Isr(vector: uint16, captureB: uint16, captureC: uint16)
      requires Valid()
      modifies b, b.buffer, c, c.buffer
      ensures Valid() && State() == CaptureBC(old(State()), vector, captureB, captureC)
    {
      if vector == VectorCcr1 {
        b.OnEdge(captureB);
      }
      if vector == VectorCcr1 || vector == VectorCcr2 {
        c.OnEdge(captureC);
      }
    }

    /** One pass of the `while(1)` body of `main`. */
    method MainLoopPass()
      requires Valid()
      modifies this, a, b, c
      ensures Valid() && State() == DispatchPass(old(State()))
    {
      ghost var s0 := State();
      ghost var pa := Service(s0.a, s0.result);
      if a.frameComplete {
        result := DecodeNEC(a.buffer);
        a.frameComplete := false;
        a.leaderDetected := false;
      }
      assert a.State() == pa.0 && result == pa.1 && b.State() == s0.b && c.State() == s0.c;
      ghost var pb := Service(s0.b, pa.1);
      if b.frameComplete {
        result := DecodeNEC(b.buffer);
        b.frameComplete := false;
        b.leaderDetected := false;
      }
      assert a.State() == pa.0 && b.State() == pb.0 && result == pb.1 && c.State() == s0.c;
      if c.frameComplete {
        result := DecodeNEC(c.buffer);
        c.frameComplete := false;
        c.leaderDetected := false;
      }
    }
  }
}
