/*
 * One capture channel of IrReceiver.c.  The firmware hand-copies the same
 * globals and edge handler three times (A on CCR0, B on CCR1, C on CCR2);
 * here they are one `Channel` class, specified by the value-level step
 * `EdgeStep` on `ChannelState`, about which the lemmas below speak.
 *
 * On every captured edge the handler computes the 16-bit time since the
 * previous edge.  A duration strictly between 8500 and 9500 ticks is taken
 * for an NEC leader and restarts the frame at slot 0; while a leader is
 * detected every duration is appended, and the 67th stored sample marks the
 * frame complete.
 */
module IrChannel {
  import opened MachineTypes
  import opened NecDecode

  const CaptureBufferSize := 68
  const TotalTimings := 67
  const LowerLeader := 8500
  const UpperLeader := 9500

  /** The globals of one channel, as values. */
  datatype ChannelState = ChannelState(
    lastCapture: uint16,
    buffer: seq<uint16>,
    captureIndex: uint8,
    leaderDetected: bool,
    frameComplete: bool)

  /** Zero-initialised globals at reset. */
  const Reset: ChannelState := ChannelState(0, seq(CaptureBufferSize, _ => 0), 0, false, false)

  /** The invariant the handler keeps: the cursor never reaches the last slot. */
  predicate Inv(st: ChannelState) {
    |st.buffer| == CaptureBufferSize && st.captureIndex < TotalTimings
  }

  /**
   * `currentcapture - lastCapture` in `uint16_t`: the timer runs freely and
   * wraps, and the difference wraps with it, so it recovers the elapsed
   * ticks whenever fewer than 65536 have passed.
   */
  function Duration(last: uint16, current: uint16): (d: uint16)
    ensures (last + d) % 0x1_0000 == current
  {
    (current - last) % 0x1_0000
  }

  /** The capture count `d` ticks after `t`, on the free-running 16-bit timer. */
  function Advance(t: uint16, d: uint16): (t': uint16)
  {
    (t + d) % 0x1_0000
  }

  /** The duration of an edge `d` ticks after the previous one is `d`, across a wrap or not. */
  lemma DurationOfAdvance(last: uint16, d: uint16)
    ensures Duration(last, Advance(last, d)) == d
  {
    var current := Advance(last, d);
    if last + d < 0x1_0000 {
      assert current - last == d;
    } else {
      assert current - last == d - 0x1_0000;
    }
  }

  /** A capture of 10 after one of 65530 is 16 ticks later. */
  lemma DurationAcrossWrap()
    ensures Duration(65530, 10) == 16
  {
    DurationOfAdvance(65530, 16);
  }

  /** Both bounds of the leader window are strict. */
  predicate IsLeader(d: uint16) {
    LowerLeader < d < UpperLeader
  }

  /** One run of the edge handler for the capture count `current`. */
  function EdgeStep(st: ChannelState, current: uint16): (r: ChannelState)
    requires |st.buffer| == CaptureBufferSize
    ensures |r.buffer| == CaptureBufferSize
    ensures r.lastCapture == current
    ensures st.frameComplete ==> r.frameComplete
  {
    var d := Duration(st.lastCapture, current);
    var seen := if IsLeader(d) then st.(lastCapture := current, leaderDetected := true, captureIndex := 0)
                else st.(lastCapture := current);
    if !seen.leaderDetected then seen
    else
      var stored := if seen.captureIndex < CaptureBufferSize
                    then seen.(buffer := seen.buffer[seen.captureIndex := d], captureIndex := seen.captureIndex + 1)
                    else seen;
      if stored.captureIndex == TotalTimings
      then stored.(frameComplete := true, captureIndex := 0, leaderDetected := false)
      else stored
  }

  /** The handler keeps the invariant, so the `< 68` guard always passes and slot 67 is never written. */
  lemma EdgeStepKeepsInv(st: ChannelState, current: uint16)
    requires Inv(st)
    ensures Inv(EdgeStep(st, current))
    ensures EdgeStep(st, current).buffer[TotalTimings] == st.buffer[TotalTimings]
  {
  }

  lemma ResetInv()
    ensures Inv(Reset)
  {
  }

  /**
   * A leader-length duration restarts the frame from any state, even in the
   * middle of a frame: it lands in slot 0 and the cursor moves to 1.
   */
  lemma LeaderRestarts(st: ChannelState, current: uint16)
    requires |st.buffer| == CaptureBufferSize && IsLeader(Duration(st.lastCapture, current))
    ensures var r := EdgeStep(st, current);
      && r.leaderDetected && r.captureIndex == 1
      && r.buffer == st.buffer[0 := Duration(st.lastCapture, current)]
      && r.frameComplete == st.frameComplete
  {
  }

  /** Without a leader, an edge only moves `lastCapture`; it never clears `framecomplete`. */
  lemma IdleEdge(st: ChannelState, current: uint16)
    requires |st.buffer| == CaptureBufferSize
    requires !st.leaderDetected && !IsLeader(Duration(st.lastCapture, current))
    ensures EdgeStep(st, current) == st.(lastCapture := current)
  {
  }

  /**
   * Inside a frame, a non-leader duration is appended at the cursor; the
   * frame completes exactly when that was slot 66, the 67th sample.
   */
  lemma AppendSample(st: ChannelState, current: uint16)
    requires Inv(st) && st.leaderDetected && !IsLeader(Duration(st.lastCapture, current))
    ensures var r := EdgeStep(st, current);
      && r.buffer == st.buffer[st.captureIndex := Duration(st.lastCapture, current)]
      && (r.frameComplete && !st.frameComplete ==> st.captureIndex == TotalTimings - 1)
      && (st.captureIndex == TotalTimings - 1 ==> r.frameComplete && r.captureIndex == 0 && !r.leaderDetected)
      && (st.captureIndex < TotalTimings - 1 ==>
            r.captureIndex == st.captureIndex + 1 && r.leaderDetected && r.frameComplete == st.frameComplete)
  {
  }

  /** The edges seen by a channel: capture counts `ds[0]`, `ds[0] + ds[1]`, ... ticks after `start`, mod 2^16. */
  function Timestamps(start: uint16, ds: seq<uint16>): (cs: seq<uint16>)
    ensures |cs| == |ds|
    decreases |ds|
  {
    if ds == [] then []
    else
      var next := Advance(start, ds[0]);
      [next] + Timestamps(next, ds[1..])
  }

  /** The handler run on a sequence of capture counts. */
  function Run(st: ChannelState, captures: seq<uint16>): (r: ChannelState)
    requires |st.buffer| == CaptureBufferSize
    ensures |r.buffer| == CaptureBufferSize
    decreases |captures|
  {
    if captures == [] then st else Run(EdgeStep(st, captures[0]), captures[1..])
  }

  /** The first edge of a timestamped run is handled on its own. */
  lemma RunFirst(st: ChannelState, ds: seq<uint16>)
    requires |st.buffer| == CaptureBufferSize && ds != []
    ensures var next := Advance(st.lastCapture, ds[0]);
      Run(st, Timestamps(st.lastCapture, ds)) == Run(EdgeStep(st, next), Timestamps(next, ds[1..]))
  {
    var next := Advance(st.lastCapture, ds[0]);
    var cs := Timestamps(st.lastCapture, ds);
    var rest := Timestamps(next, ds[1..]);
    assert cs == [next] + rest;
    assert cs[0] == next && cs[1..] == rest;
    assert Run(st, cs) == Run(EdgeStep(st, next), rest);
  }

  /** No duration of `ds` lies in the leader window. */
  predicate NoLeader(ds: seq<uint16>) {
    forall i :: 0 <= i < |ds| ==> !IsLeader(ds[i])
  }

  lemma NoLeaderTail(ds: seq<uint16>)
    requires ds != [] && NoLeader(ds)
    ensures NoLeader(ds[1..])
  {
    forall i | 0 <= i < |ds[1..]| ensures !IsLeader(ds[1..][i]) {
      assert ds[1..][i] == ds[i + 1];
    }
  }

  /** Writing slot `i` extends the prefix before `i` by one element and leaves slots from `j > i` alone. */
  lemma UpdateSplit(buffer: seq<uint16>, i: nat, x: uint16, j: nat)
    requires i < j <= |buffer|
    ensures buffer[i := x][..i + 1] == buffer[..i] + [x]
    ensures buffer[i := x][j..] == buffer[j..]
  {
  }

  /** The first of several in-frame samples is appended and leaves the frame open. */
  lemma FillStep(st: ChannelState, ds: seq<uint16>) returns (st': ChannelState)
    requires Inv(st) && st.leaderDetected && NoLeader(ds)
    requires |ds| > 1 && st.captureIndex + |ds| <= TotalTimings
    ensures Inv(st') && st'.leaderDetected && NoLeader(ds[1..])
    ensures st'.captureIndex == st.captureIndex + 1 && st'.frameComplete == st.frameComplete
    ensures st'.buffer == st.buffer[st.captureIndex := ds[0]]
    ensures Run(st, Timestamps(st.lastCapture, ds)) == Run(st', Timestamps(st'.lastCapture, ds[1..]))
  {
    var next := Advance(st.lastCapture, ds[0]);
    DurationOfAdvance(st.lastCapture, ds[0]);
    AppendSample(st, next);
    st' := EdgeStep(st, next);
    RunFirst(st, ds);
    NoLeaderTail(ds);
  }

  /** Fewer than the remaining samples: they are appended and the frame stays open. */
  lemma {:induction false} FillOpen(st: ChannelState, ds: seq<uint16>)
    requires Inv(st) && st.leaderDetected && NoLeader(ds)
    requires st.captureIndex + |ds| < TotalTimings
    ensures var r := Run(st, Timestamps(st.lastCapture, ds));
      && r.leaderDetected && r.captureIndex == st.captureIndex + |ds|
      && r.frameComplete == st.frameComplete
      && r.buffer == st.buffer[..st.captureIndex] + ds + st.buffer[st.captureIndex + |ds|..]
    decreases |ds|
  {
    if |ds| == 1 {
      var next := Advance(st.lastCapture, ds[0]);
      DurationOfAdvance(st.lastCapture, ds[0]);
      AppendSample(st, next);
      RunFirst(st, ds);
      assert ds[1..] == [];
      UpdateSplit(st.buffer, st.captureIndex as nat, ds[0], st.captureIndex as nat + 1);
    } else if |ds| > 1 {
      var st' := FillStep(st, ds);
      FillOpen(st', ds[1..]);
      UpdateSplit(st.buffer, st.captureIndex as nat, ds[0], st.captureIndex as nat + |ds|);
      assert ds == [ds[0]] + ds[1..];
    }
  }

  /** The 67th sample completes the frame. */
  lemma FillLast(st: ChannelState, d: uint16)
    requires Inv(st) && st.leaderDetected && !IsLeader(d)
    requires st.captureIndex as int == TotalTimings - 1
    ensures var r := Run(st, Timestamps(st.lastCapture, [d]));
      && r.frameComplete && r.captureIndex == 0 && !r.leaderDetected
      && r.buffer == st.buffer[..st.captureIndex] + [d] + st.buffer[TotalTimings..]
  {
    var i := st.captureIndex as nat;
    var next := Advance(st.lastCapture, d);
    DurationOfAdvance(st.lastCapture, d);
    AppendSample(st, next);
    RunFirst(st, [d]);
    assert [d][1..] == [];
    UpdateSplit(st.buffer, i, d, TotalTimings);
    assert st.buffer[i := d] == st.buffer[i := d][..i + 1] + st.buffer[i := d][TotalTimings..];
  }

  /** Exactly the remaining samples: the last one completes the frame. */
  lemma {:induction false} FillComplete(st: ChannelState, ds: seq<uint16>)
    requires Inv(st) && st.leaderDetected && NoLeader(ds)
    requires |ds| > 0 && st.captureIndex + |ds| == TotalTimings
    ensures var r := Run(st, Timestamps(st.lastCapture, ds));
      && r.frameComplete && r.captureIndex == 0 && !r.leaderDetected
      && r.buffer == st.buffer[..st.captureIndex] + ds + st.buffer[TotalTimings..]
    decreases |ds|
  {
    if |ds| == 1 {
      FillLast(st, ds[0]);
      assert ds == [ds[0]];
    } else {
      var st' := FillStep(st, ds);
      UpdateSplit(st.buffer, st.captureIndex as nat, ds[0], TotalTimings);
      FillComplete(st', ds[1..]);
      assert ds == [ds[0]] + ds[1..];
    }
  }

  /**
   * A whole frame: a leader followed by 66 non-leader durations leaves the
   * 67 durations in slots 0..66 with the frame flagged complete, whatever
   * state the channel was in before.
   */
  lemma CaptureFrame(st: ChannelState, ds: seq<uint16>)
    requires Inv(st) && |ds| == TotalTimings && IsLeader(ds[0]) && NoLeader(ds[1..])
    ensures var r := Run(st, Timestamps(st.lastCapture, ds));
      && r.frameComplete && r.captureIndex == 0 && !r.leaderDetected
      && r.buffer == ds + [st.buffer[TotalTimings]]
  {
    var next := Advance(st.lastCapture, ds[0]);
    DurationOfAdvance(st.lastCapture, ds[0]);
    LeaderRestarts(st, next);
    var st' := EdgeStep(st, next);
    assert Inv(st') && st'.leaderDetected && st'.captureIndex == 1 && st'.lastCapture == next;
    FillComplete(st', ds[1..]);
    RunFirst(st, ds);
    assert st'.buffer[..1] == [ds[0]];
    assert st'.buffer[TotalTimings..] == [st.buffer[TotalTimings]];
  }

  /** A frame cut short after its leader and fewer than 66 samples is never flagged complete. */
  lemma TruncatedFrame(st: ChannelState, ds: seq<uint16>)
    requires Inv(st) && 0 < |ds| < TotalTimings && IsLeader(ds[0]) && NoLeader(ds[1..])
    requires !st.frameComplete
    ensures var r := Run(st, Timestamps(st.lastCapture, ds));
      && !r.frameComplete && r.leaderDetected && r.captureIndex == |ds|
  {
    var next := Advance(st.lastCapture, ds[0]);
    DurationOfAdvance(st.lastCapture, ds[0]);
    LeaderRestarts(st, next);
    var st' := EdgeStep(st, next);
    FillOpen(st', ds[1..]);
    RunFirst(st, ds);
  }

  /** The frame a channel captures decodes to the value its spaces carry. */
  lemma CapturedFrameDecodes(st: ChannelState, ds: seq<uint16>, v: bv32)
    requires Inv(st) && |ds| == TotalTimings && IsLeader(ds[0]) && NoLeader(ds[1..])
    requires Encodes(ds, v)
    ensures Decoded(Run(st, Timestamps(st.lastCapture, ds)).buffer) == v
  {
    CaptureFrame(st, ds);
    var buffer := Run(st, Timestamps(st.lastCapture, ds)).buffer;
    forall b: bv32 | b < 32 ensures Space(buffer, b) == Space(ds, b) {}
    DecodeRoundTrip(buffer, v);
  }

  /** One channel's globals: `lastCaptureX`, `CaptureBufferX`, `captureindexX`, `leaderDetectedX`, `framecompleteX`. */
  class Channel {
    var lastCapture: uint16
    const buffer: array<uint16>
    var captureIndex: uint8
    var leaderDetected: bool
    var frameComplete: bool

    /** The buffer has 68 slots and the cursor stays below 67 (`Inv` of `State()`). */
    ghost predicate Valid()
      reads this
    {
      buffer.Length == CaptureBufferSize && captureIndex < TotalTimings
    }

    ghost function State(): ChannelState
      reads this, buffer
      requires Valid()
    {
      ChannelState(lastCapture, buffer[..], captureIndex, leaderDetected, frameComplete)
    }

    constructor ()
      ensures Valid() && fresh(buffer) && State() == Reset
    {
      lastCapture := 0;
      buffer := new uint16[CaptureBufferSize](_ => 0);
      captureIndex := 0;
      leaderDetected := false;
      frameComplete := false;
    }

    /** The body of `TIMER0_A0_CCR0_ISR` and of each case of `TIMER0_A1_ISR`. */
    method OnEdge(current: uint16)
      requires Valid()
      modifies this, buffer
      ensures Valid() && State() == EdgeStep(old(State()), current)
    {
      var duration := Duration(lastCapture, current);
      lastCapture := current;

      if IsLeader(duration) {
        leaderDetected := true;
        captureIndex := 0;
      }

      if leaderDetected {
        if captureIndex < CaptureBufferSize {
          buffer[captureIndex] := duration;
          captureIndex := captureIndex + 1;
        }
        if captureIndex == TotalTimings {
          frameComplete := true;
          captureIndex := 0;
          leaderDetected := false;
        }
      }
    }
  }
}
