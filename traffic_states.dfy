/*
 * traffic_states.c: the LED vector of the traffic controller and the
 * per-state signal patterns.  `LEDState` is four bytes used as one 32-bit
 * vector, LED n being bit n % 8 of byte n / 8.  Every `setState_*` clears
 * the vector and lights a fixed set of LEDs, so each state's pattern is
 * specified by the set `StateLeds(x)` and the bytes `FromSet` of it.
 */
module TrafficStates {
  import opened MachineTypes
  import opened TrafficDefs

  /** The contents of `LEDState.byte`. */
  type LedBytes = s: seq<bv8> | |s| == 4 witness [0, 0, 0, 0]

  /** All LEDs off: what `memset(state->byte, 0, 4)` leaves. */
  const Dark: LedBytes := [0, 0, 0, 0]

  /**
   * `1 << bitIndex` for a bit index 0..7, truncated to the byte it is or-ed
   * into; written as a table so that no proof has to reason about shifts.
   */
  function BitMask(j: nat): (m: bv8)
    requires j < 8
  {
    match j
    case 0 => 0x01
    case 1 => 0x02
    case 2 => 0x04
    case 3 => 0x08
    case 4 => 0x10
    case 5 => 0x20
    case 6 => 0x40
    case _ => 0x80
  }

  /** The table is the shift. */
  lemma BitMaskIsShift(j: nat)
    requires j < 8
    ensures BitMask(j) == 1 << j
  {
  }

  /** `getLED`: out-of-range numbers read as off. */
  function GetLED(b: LedBytes, n: uint8): (on: bool)
    ensures on ==> n < 32
  {
    if n >= 32 then false
    else b[n / 8] & BitMask(n % 8) != 0
  }

  /** The vector after `setLED(state, n, on)`; out-of-range numbers change nothing. */
  function WithLED(b: LedBytes, n: uint8, on: bool): (r: LedBytes)
    ensures n >= 32 ==> r == b
  {
    if n >= 32 then b
    else if on then b[n / 8 := b[n / 8] | BitMask(n % 8)]
    else b[n / 8 := b[n / 8] & !BitMask(n % 8)]
  }

  /** Setting or clearing bit `j` of a byte leaves its other bits alone. */
  lemma MaskBits(x: bv8, j: nat, k: nat)
    requires j < 8 && k < 8
    ensures (x | BitMask(j)) & BitMask(k) != 0 <==> j == k || x & BitMask(k) != 0
    ensures (x & !BitMask(j)) & BitMask(k) != 0 <==> j != k && x & BitMask(k) != 0
  {
  }

  /**
   * Set/get round trip and frame: after `setLED(s, n, on)` with n < 32,
   * `getLED(s, n) == on` and every other LED reads as before; for n >= 32
   * nothing changes.
   */
  lemma GetWithLED(b: LedBytes, n: uint8, on: bool, m: uint8)
    ensures GetLED(WithLED(b, n, on), m) == if m == n && n < 32 then on else GetLED(b, m)
  {
    if n < 32 && m < 32 && m / 8 == n / 8 {
      MaskBits(b[n / 8], n % 8, m % 8);
    }
  }

  /** LED numbers from 32 up address nothing: `setLED` ignores them and `getLED` reads them as off. */
  lemma OutOfRangeLED(b: LedBytes, n: uint8, on: bool)
    requires n >= 32
    ensures WithLED(b, n, on) == b && !GetLED(b, n)
  {
  }

  /** The LEDs that are on. */
  function Lit(b: LedBytes): (leds: set<uint8>)
  {
    set n: uint8 | n < 32 && GetLED(b, n)
  }

  /** All LED numbers of `leds` are addressable. */
  ghost predicate Addressable(leds: set<uint8>) {
    forall n :: n in leds ==> n < 32
  }

  /** Byte `i` of the vector that lights exactly `leds`. */
  function ByteOf(leds: set<uint8>, i: nat): (byte: bv8)
  {
    (if 8 * i in leds then 0x01 else 0) | (if 8 * i + 1 in leds then 0x02 else 0) |
    (if 8 * i + 2 in leds then 0x04 else 0) | (if 8 * i + 3 in leds then 0x08 else 0) |
    (if 8 * i + 4 in leds then 0x10 else 0) | (if 8 * i + 5 in leds then 0x20 else 0) |
    (if 8 * i + 6 in leds then 0x40 else 0) | (if 8 * i + 7 in leds then 0x80 else 0)
  }

  /** The vector that lights exactly `leds`. */
  function FromSet(leds: set<uint8>): (b: LedBytes)
  {
    [ByteOf(leds, 0), ByteOf(leds, 1), ByteOf(leds, 2), ByteOf(leds, 3)]
  }

  lemma ByteOfBit(leds: set<uint8>, i: nat, j: nat)
    requires j < 8
    ensures ByteOf(leds, i) & BitMask(j) != 0 <==> 8 * i + j in leds
  {
  }

  lemma GetFromSet(leds: set<uint8>, n: uint8)
    ensures GetLED(FromSet(leds), n) <==> n < 32 && n in leds
  {
    if n < 32 {
      ByteOfBit(leds, n / 8, n % 8);
    }
  }

  /** `FromSet` lights exactly the given LEDs. */
  lemma LitFromSet(leds: set<uint8>)
    requires Addressable(leds)
    ensures Lit(FromSet(leds)) == leds
  {
    forall n: uint8
      ensures n in Lit(FromSet(leds)) <==> n in leds
    {
      GetFromSet(leds, n);
    }
  }

  lemma SingleBit(x: bv8, j: nat)
    requires j < 8
    ensures x & BitMask(j) == 0 || x & BitMask(j) == BitMask(j)
  {
  }

  lemma ByteExtensionality(x: bv8, y: bv8)
    requires x & 0x01 == y & 0x01 && x & 0x02 == y & 0x02 && x & 0x04 == y & 0x04 && x & 0x08 == y & 0x08
    requires x & 0x10 == y & 0x10 && x & 0x20 == y & 0x20 && x & 0x40 == y & 0x40 && x & 0x80 == y & 0x80
    ensures x == y
  {
  }

  lemma SameByte(leds: set<uint8>, b: LedBytes, i: nat)
    requires i < 4
    requires forall n: uint8 :: n < 32 ==> (GetLED(b, n) <==> n in leds)
    ensures ByteOf(leds, i) == b[i]
  {
    var x, y := ByteOf(leds, i), b[i];
    forall j: nat | j < 8
      ensures x & BitMask(j) == y & BitMask(j)
    {
      ByteOfBit(leds, i, j);
      assert GetLED(b, 8 * i + j) <==> 8 * i + j in leds;
      assert (8 * i + j) / 8 == i && (8 * i + j) % 8 == j;
      SingleBit(x, j);
      SingleBit(y, j);
    }
    assert BitMask(0) == 0x01 && BitMask(1) == 0x02 && BitMask(2) == 0x04 && BitMask(3) == 0x08;
    assert BitMask(4) == 0x10 && BitMask(5) == 0x20 && BitMask(6) == 0x40 && BitMask(7) == 0x80;
    ByteExtensionality(x, y);
  }

  /** The four bytes are determined by which LEDs are on. */
  lemma FromSetLit(b: LedBytes)
    ensures FromSet(Lit(b)) == b
  {
    var leds := Lit(b);
    SameByte(leds, b, 0);
    SameByte(leds, b, 1);
    SameByte(leds, b, 2);
    SameByte(leds, b, 3);
  }

  lemma DarkFromSet()
    ensures FromSet({}) == Dark
  {
  }

  lemma LightByte(leds: set<uint8>, n: uint8, i: nat)
    requires n < 32 && i == n / 8
    ensures ByteOf(leds, i) | BitMask(n % 8) == ByteOf(leds + {n}, i)
  {
  }

  lemma OtherByte(leds: set<uint8>, n: uint8, i: nat)
    requires n < 32 && i < 4 && i != n / 8
    ensures ByteOf(leds, i) == ByteOf(leds + {n}, i)
  {
  }

  lemma UpdateOne(before: LedBytes, after: LedBytes, q: nat, v: bv8)
    requires q < 4 && after[q] == v
    requires forall i :: 0 <= i < 4 && i != q ==> before[i] == after[i]
    ensures before[q := v] == after
  {
  }

  /** Adding LED n to the set changes byte n / 8 only, by or-ing in its bit. */
  lemma FromSetBytes(leds: set<uint8>, n: uint8)
    requires n < 32
    ensures FromSet(leds + {n})[n / 8] == FromSet(leds)[n / 8] | BitMask(n % 8)
    ensures forall i :: 0 <= i < 4 && i != n / 8 ==> FromSet(leds + {n})[i] == FromSet(leds)[i]
  {
    var q := n / 8;
    LightByte(leds, n, q);
    if q != 0 { OtherByte(leds, n, 0); }
    if q != 1 { OtherByte(leds, n, 1); }
    if q != 2 { OtherByte(leds, n, 2); }
    if q != 3 { OtherByte(leds, n, 3); }
  }

  /** `setLED(s, n, true)` on the vector of a set adds n to the set. */
  lemma LightFromSet(leds: set<uint8>, n: uint8)
    requires n < 32
    ensures WithLED(FromSet(leds), n, true) == FromSet(leds + {n})
  {
    var before := FromSet(leds);
    FromSetBytes(leds, n);
    UpdateOne(before, FromSet(leds + {n}), n / 8, before[n / 8] | BitMask(n % 8));
  }

  lemma Gather4(a: uint8, b: uint8, c: uint8, d: uint8)
    ensures {} + {a} + {b} + {c} + {d} == {a, b, c, d}
  {
  }

  lemma Gather8(a: uint8, b: uint8, c: uint8, d: uint8, e: uint8, f: uint8, g: uint8, h: uint8)
    ensures {} + {a} + {b} + {c} + {d} + {e} + {f} + {g} + {h} == {a, b, c, d, e, f, g, h}
  {
  }

  /** After `initLEDState` or `clearAllLEDs` every LED reads as off. */
  lemma DarkIsAllOff()
    ensures forall n: uint8 :: !GetLED(Dark, n)
    ensures Lit(Dark) == {}
  {
  }

  /** `setAllRed`: the red aspect of every signal head. */
  const AllRedLeds: set<uint8> := {NsMainRed, NLeftRed, SLeftRed, SRightRed, WThruRed, WRightRed, EThruRed, ELeftRed}

  /** `setAllYellow`: the steady yellow aspect of every signal head. */
  const AllYellowLeds: set<uint8> := {NsMainYellow, NLeftYellowSteady, SLeftYellowSteady, SRightYellow, WThruYellow, WRightYellow, EThruYellow, ELeftYellow}

  /**
   * The LEDs each state lights (the `setState_*` functions); a value outside
   * the enumeration lights what `setAllRed` does.
   */
  function StateLeds(x: TrafficState): (leds: set<uint8>)
  {
    match x
    case StateUnivGreen => {NsMainGreen, NLeftRed, SLeftRed, SRightGreenBall, WThruRed, WRightRed, EThruRed, ELeftRed}
    case StateUnivYellow => {NsMainYellow, NLeftRed, SLeftRed, SRightYellow, WThruRed, WRightRed, EThruRed, ELeftRed}
    case StateAllRed1 => AllRedLeds
    case StateNLeftGreen => {NsMainRed, NLeftGreenArrow, SLeftRed, SRightRed, WThruRed, WRightRed, EThruRed, ELeftRed}
    case StateNLeftYellow => {NsMainRed, NLeftYellowSteady, SLeftRed, SRightRed, WThruRed, WRightRed, EThruRed, ELeftRed}
    case StateAllRed2 => AllRedLeds
    case StateSLeftGreen => {NsMainRed, NLeftRed, SLeftGreenArrow, SRightRed, WThruRed, WRightRed, EThruRed, ELeftRed}
    case StateSLeftYellow => {NsMainRed, NLeftRed, SLeftYellowSteady, SRightRed, WThruRed, WRightRed, EThruRed, ELeftRed}
    case StateAllRed3 => AllRedLeds
    case StateWestGreen => {NsMainRed, NLeftRed, SLeftRed, SRightRed, WThruGreen, WRightGreenBall, EThruRed, ELeftRed}
    case StateWestYellow => {NsMainRed, NLeftRed, SLeftRed, SRightRed, WThruYellow, WRightYellow, EThruRed, ELeftRed}
    case StateAllRed4 => AllRedLeds
    case StateEastThruGreen => {NsMainRed, NLeftRed, SLeftRed, SRightRed, WThruRed, WRightRed, EThruGreen, ELeftRed}
    case StateEastThruYellow => {NsMainRed, NLeftRed, SLeftRed, SRightRed, WThruRed, WRightRed, EThruYellow, ELeftRed}
    case StateAllRed5 => AllRedLeds
    case StateELeftGreen => {NsMainRed, NLeftRed, SLeftRed, SRightRed, WThruRed, WRightRed, EThruRed, ELeftGreenArrow}
    case StateELeftYellow => {NsMainRed, NLeftRed, SLeftRed, SRightRed, WThruRed, WRightRed, EThruRed, ELeftYellow}
    case StateAllRed6 => AllRedLeds
    case StateNorthPriority => {NsMainGreen, NLeftGreenArrow, SLeftRed, SRightRed, WThruRed, WRightRed, EThruRed, ELeftRed}
    case StateNArrowEnding => {NsMainGreen, NLeftYellowSteady, SLeftRed, SRightRed, WThruRed, WRightRed, EThruRed, ELeftRed}
    case StateNThruBonus => {NsMainGreen, NLeftRed, SLeftRed, SRightRed, WThruRed, WRightRed, EThruRed, ELeftRed}
    case StateNThruYellow => {NsMainYellow, NLeftRed, SLeftRed, SRightRed, WThruRed, WRightRed, EThruRed, ELeftRed}
    case StateAllRedHt1 => AllRedLeds
    case StateSouthGreenHt => {NsMainGreen, NLeftRed, SLeftRed, SRightGreenBall, WThruRed, WRightRed, EThruRed, ELeftRed}
    case StateSouthYellowHt => {NsMainYellow, NLeftRed, SLeftRed, SRightYellow, WThruRed, WRightRed, EThruRed, ELeftRed}
    case StateAllRedHt2 => AllRedLeds
    case StateSLeftGreenHt => {NsMainRed, NLeftRed, SLeftGreenArrow, SRightRed, WThruRed, WRightRed, EThruRed, ELeftRed}
    case StateSLeftYellowHt => {NsMainRed, NLeftRed, SLeftYellowSteady, SRightRed, WThruRed, WRightRed, EThruRed, ELeftRed}
    case StateAllRedHt3 => AllRedLeds
    case StateWestGreenHt => {NsMainRed, NLeftRed, SLeftRed, SRightRed, WThruGreen, WRightGreenBall, EThruRed, ELeftRed}
    case StateWestYellowHt => {NsMainRed, NLeftRed, SLeftRed, SRightRed, WThruYellow, WRightYellow, EThruRed, ELeftRed}
    case StateAllRedHt4 => AllRedLeds
    case StateEastThruGreenHt => {NsMainRed, NLeftRed, SLeftRed, SRightRed, WThruRed, WRightRed, EThruGreen, ELeftRed}
    case StateEastThruYellowHt => {NsMainRed, NLeftRed, SLeftRed, SRightRed, WThruRed, WRightRed, EThruYellow, ELeftRed}
    case StateAllRedHt5 => AllRedLeds
    case StateELeftGreenHt => {NsMainRed, NLeftRed, SLeftRed, SRightRed, WThruRed, WRightRed, EThruRed, ELeftGreenArrow}
    case StateELeftYellowHt => {NsMainRed, NLeftRed, SLeftRed, SRightRed, WThruRed, WRightRed, EThruRed, ELeftYellow}
    case StateNightOff => {}
    case StateNightOn => {NsMainGreen, WThruRed, WRightRed, EThruRed}
    case StateEmergWarning => AllYellowLeds
    case StateEmergHold => AllRedLeds
    case StateEmergClearing => AllRedLeds
    case StateEmergReturn => AllRedLeds
    case _ => AllRedLeds
  }

  /** Every state pattern uses LEDs 0..27 only: the spares 28..30 and bit 31 stay dark. */
  lemma StateLedsInRange(x: TrafficState)
    ensures forall n :: n in StateLeds(x) ==> n < SpareLed1
  {
  }

  /** `executeState(s, x)` lights exactly `StateLeds(x)`. */
  lemma ExecuteStateLights(x: TrafficState)
    ensures Lit(FromSet(StateLeds(x))) == StateLeds(x)
    ensures forall n: uint8 :: GetLED(FromSet(StateLeds(x)), n) <==> n in StateLeds(x)
  {
    StateLedsInRange(x);
    LitFromSet(StateLeds(x));
  }

  /** The top nibble of `byte[3]` (LEDs 28..31) is 0 after every `executeState`. */
  lemma SparesStayDark(x: TrafficState)
    ensures FromSet(StateLeds(x))[3] & 0xF0 == 0
  {
    StateLedsInRange(x);
  }

  /** `setAllRed` lights exactly LEDs 0, 3, 7, 11, 15, 18, 22 and 25. */
  lemma AllRedLights()
    ensures Lit(FromSet(AllRedLeds)) == {0, 3, 7, 11, 15, 18, 22, 25}
  {
    LitFromSet(AllRedLeds);
  }

  /** `setAllYellow` lights exactly LEDs 1, 5, 9, 12, 16, 19, 23 and 26. */
  lemma AllYellowLights()
    ensures Lit(FromSet(AllYellowLeds)) == {1, 5, 9, 12, 16, 19, 23, 26}
  {
    LitFromSet(AllYellowLeds);
  }

  /**
   * The night states: night-off turns every LED off; night-on lights the
   * University green and the 8th Street reds only.
   */
  lemma NightStatesLights()
    ensures Lit(FromSet(StateLeds(StateNightOff))) == {}
    ensures Lit(FromSet(StateLeds(StateNightOn))) == {2, 15, 18, 25}
  {
    ExecuteStateLights(StateNightOff);
    ExecuteStateLights(StateNightOn);
  }

  /**
   * Delegating states and the default: a value outside the enumeration shows
   * what `setAllRed` shows, and the emergency warning what `setAllYellow` shows.
   */
  lemma ExecuteStateDelegates(x: TrafficState)
    ensures !(StateUnivGreen <= x <= StateEmergReturn) ==> StateLeds(x) == AllRedLeds
    ensures StateLeds(StateEmergWarning) == AllYellowLeds
    ensures StateLeds(StateEmergHold) == AllRedLeds
  {
  }

  /** `getStateDuration`: how long each state is held, in milliseconds; 2000 for any other value. */
  function GetStateDuration(state: TrafficState): (ms: uint32)
    ensures TimeNightFlash <= ms <= TimeNPriority
  {
    match state
    case StateUnivGreen => TimeUnivGreen
    case StateUnivYellow => TimeYellow
    case StateAllRed1 => TimeAllRed
    case StateNLeftGreen => TimeNLeftGreen
    case StateNLeftYellow => TimeYellowArrow
    case StateAllRed2 => TimeAllRed
    case StateSLeftGreen => TimeSLeftGreen
    case StateSLeftYellow => TimeYellowArrow
    case StateAllRed3 => TimeAllRed
    case StateWestGreen => TimeWestGreen
    case StateWestYellow => TimeYellow
    case StateAllRed4 => TimeAllRed
    case StateEastThruGreen => TimeEastThruGreen
    case StateEastThruYellow => TimeYellow
    case StateAllRed5 => TimeAllRed
    case StateELeftGreen => TimeELeftGreen
    case StateELeftYellow => TimeYellowArrow
    case StateAllRed6 => TimeAllRed
    case StateNorthPriority => TimeNPriority
    case StateNArrowEnding => TimeNArrowEnd
    case StateNThruBonus => TimeNThruBonus
    case StateNThruYellow => TimeNThruYellowHt
    case StateAllRedHt1 => TimeAllRed
    case StateSouthGreenHt => TimeSouthGreenHt
    case StateSouthYellowHt => TimeYellow
    case StateAllRedHt2 => TimeAllRed
    case StateSLeftGreenHt => TimeSLeftGreenHt
    case StateSLeftYellowHt => TimeYellowArrow
    case StateAllRedHt3 => TimeAllRed
    case StateWestGreenHt => TimeWestGreenHt
    case StateWestYellowHt => TimeYellow
    case StateAllRedHt4 => TimeAllRed
    case StateEastThruGreenHt => TimeEastThruHt
    case StateEastThruYellowHt => TimeYellow
    case StateAllRedHt5 => TimeAllRed
    case StateELeftGreenHt => TimeSLeftGreenHt
    case StateELeftYellowHt => TimeYellowArrow + TimeAllRed
    case StateNightOff | StateNightOn => TimeNightFlash
    case StateEmergWarning => TimeEmergWarning
    case StateEmergHold => TimeEmergHoldMin
    case StateEmergClearing => TimeEmergClearing
    case StateEmergReturn => TimeEmergReturn
    case _ => TimeAllRed
  }

  /**
   * Entries of the duration table worth a second look: the high-traffic east
   * left-turn green reuses the south left-turn timing, its yellow adds the
   * all-red time, both night states flash at 1 s, and unknown states get
   * the all-red time.
   */
  lemma NotableDurations(x: TrafficState)
    ensures GetStateDuration(StateELeftGreenHt) == TimeSLeftGreenHt == 10000
    ensures GetStateDuration(StateELeftYellowHt) == 5000
    ensures GetStateDuration(StateNightOff) == GetStateDuration(StateNightOn) == 1000
    ensures !(0 <= x < StateCount) ==> GetStateDuration(x) == 2000
  {
  }

  /** `LEDState`: the 4-byte LED vector, updated in place. */
  class LEDState {
    const byte: array<bv8>

    ghost predicate Valid()
      reads this
    {
      byte.Length == 4
    }

    /** Storage for one `LEDState`, contents unspecified until `initLEDState`. */
    constructor ()
      ensures Valid() && fresh(byte)
    {
      byte := new bv8[4];
    }

    /** `initLEDState`. */
    method InitLEDState()
      requires Valid()
      modifies byte
      ensures byte[..] == Dark
    {
      ClearAllLEDs();
    }

    /** `clearAllLEDs`. */
    method ClearAllLEDs()
      requires Valid()
      modifies byte
      ensures byte[..] == Dark
    {
      byte[0], byte[1], byte[2], byte[3] := 0, 0, 0, 0;
    }

    /** `setLED`: or in or mask out bit `ledNumber % 8` of byte `ledNumber / 8`. */
    method SetLED(ledNumber: uint8, on: bool)
      requires Valid()
      modifies byte
      ensures byte[..] == WithLED(old(byte[..]), ledNumber, on)
    {
      if ledNumber >= 32 {
        return;
      }
      var byteIndex := ledNumber / 8;
      var bitIndex := ledNumber % 8;
      if on {
        byte[byteIndex] := byte[byteIndex] | BitMask(bitIndex);
      } else {
        byte[byteIndex] := byte[byteIndex] & !BitMask(bitIndex);
      }
    }

    /** `setAllRed`. */
    method SetAllRed()
      requires Valid()
      modifies byte
      ensures byte[..] == FromSet(AllRedLeds)
    {
      assert AllRedLeds == {NsMainRed, NLeftRed, SLeftRed, SRightRed, WThruRed, WRightRed, EThruRed, ELeftRed};
      ClearAllLEDs();
      DarkFromSet();
      ghost var lit: set<uint8> := {};
      LightFromSet(lit, NsMainRed);
      SetLED(NsMainRed, true);
      lit := lit + {NsMainRed};
      LightFromSet(lit, NLeftRed);
      SetLED(NLeftRed, true);
      lit := lit + {NLeftRed};
      LightFromSet(lit, SLeftRed);
      SetLED(SLeftRed, true);
      lit := lit + {SLeftRed};
      LightFromSet(lit, SRightRed);
      SetLED(SRightRed, true);
      lit := lit + {SRightRed};
      LightFromSet(lit, WThruRed);
      SetLED(WThruRed, true);
      lit := lit + {WThruRed};
      LightFromSet(lit, WRightRed);
      SetLED(WRightRed, true);
      lit := lit + {WRightRed};
      LightFromSet(lit, EThruRed);
      SetLED(EThruRed, true);
      lit := lit + {EThruRed};
      LightFromSet(lit, ELeftRed);
      SetLED(ELeftRed, true);
      lit := lit + {ELeftRed};
      Gather8(NsMainRed, NLeftRed, SLeftRed, SRightRed, WThruRed, WRightRed, EThruRed, ELeftRed);
    }

    /** `setAllYellow`. */
    method SetAllYellow()
      requires Valid()
      modifies byte
      ensures byte[..] == FromSet(AllYellowLeds)
    {
      assert AllYellowLeds == {NsMainYellow, NLeftYellowSteady, SLeftYellowSteady, SRightYellow, WThruYellow, WRightYellow, EThruYellow, ELeftYellow};
      ClearAllLEDs();
      DarkFromSet();
      ghost var lit: set<uint8> := {};
      LightFromSet(lit, NsMainYellow);
      SetLED(NsMainYellow, true);
      lit := lit + {NsMainYellow};
      LightFromSet(lit, NLeftYellowSteady);
      SetLED(NLeftYellowSteady, true);
      lit := lit + {NLeftYellowSteady};
      LightFromSet(lit, SLeftYellowSteady);
      SetLED(SLeftYellowSteady, true);
      lit := lit + {SLeftYellowSteady};
      LightFromSet(lit, SRightYellow);
      SetLED(SRightYellow, true);
      lit := lit + {SRightYellow};
      LightFromSet(lit, WThruYellow);
      SetLED(WThruYellow, true);
      lit := lit + {WThruYellow};
      LightFromSet(lit, WRightYellow);
      SetLED(WRightYellow, true);
      lit := lit + {WRightYellow};
      LightFromSet(lit, EThruYellow);
      SetLED(EThruYellow, true);
      lit := lit + {EThruYellow};
      LightFromSet(lit, ELeftYellow);
      SetLED(ELeftYellow, true);
      lit := lit + {ELeftYellow};
      Gather8(NsMainYellow, NLeftYellowSteady, SLeftYellowSteady, SRightYellow, WThruYellow, WRightYellow, EThruYellow, ELeftYellow);
    }

    /** `setState_0_UnivGreen`. */
    method SetState0UnivGreen()
      requires Valid()
      modifies byte
      ensures byte[..] == FromSet(StateLeds(StateUnivGreen))
    {
      assert StateLeds(StateUnivGreen) == {NsMainGreen, NLeftRed, SLeftRed, SRightGreenBall, WThruRed, WRightRed, EThruRed, ELeftRed};
      ClearAllLEDs();
      DarkFromSet();
      ghost var lit: set<uint8> := {};
      LightFromSet(lit, NsMainGreen);
      SetLED(NsMainGreen, true);
      lit := lit + {NsMainGreen};
      LightFromSet(lit, NLeftRed);
      SetLED(NLeftRed, true);
      lit := lit + {NLeftRed};
      LightFromSet(lit, SLeftRed);
      SetLED(SLeftRed, true);
      lit := lit + {SLeftRed};
      LightFromSet(lit, SRightGreenBall);
      SetLED(SRightGreenBall, true);
      lit := lit + {SRightGreenBall};
      LightFromSet(lit, WThruRed);
      SetLED(WThruRed, true);
      lit := lit + {WThruRed};
      LightFromSet(lit, WRightRed);
      SetLED(WRightRed, true);
      lit := lit + {WRightRed};
      LightFromSet(lit, EThruRed);
      SetLED(EThruRed, true);
      lit := lit + {EThruRed};
      LightFromSet(lit, ELeftRed);
      SetLED(ELeftRed, true);
      lit := lit + {ELeftRed};
      Gather8(NsMainGreen, NLeftRed, SLeftRed, SRightGreenBall, WThruRed, WRightRed, EThruRed, ELeftRed);
    }

    /** `setState_1_UnivYellow`. */
    method SetState1UnivYellow()
      requires Valid()
      modifies byte
      ensures byte[..] == FromSet(StateLeds(StateUnivYellow))
    {
      assert StateLeds(StateUnivYellow) == {NsMainYellow, NLeftRed, SLeftRed, SRightYellow, WThruRed, WRightRed, EThruRed, ELeftRed};
      ClearAllLEDs();
      DarkFromSet();
      ghost var lit: set<uint8> := {};
      LightFromSet(lit, NsMainYellow);
      SetLED(NsMainYellow, true);
      lit := lit + {NsMainYellow};
      LightFromSet(lit, NLeftRed);
      SetLED(NLeftRed, true);
      lit := lit + {NLeftRed};
      LightFromSet(lit, SLeftRed);
      SetLED(SLeftRed, true);
      lit := lit + {SLeftRed};
      LightFromSet(lit, SRightYellow);
      SetLED(SRightYellow, true);
      lit := lit + {SRightYellow};
      LightFromSet(lit, WThruRed);
      SetLED(WThruRed, true);
      lit := lit + {WThruRed};
      LightFromSet(lit, WRightRed);
      SetLED(WRightRed, true);
      lit := lit + {WRightRed};
      LightFromSet(lit, EThruRed);
      SetLED(EThruRed, true);
      lit := lit + {EThruRed};
      LightFromSet(lit, ELeftRed);
      SetLED(ELeftRed, true);
      lit := lit + {ELeftRed};
      Gather8(NsMainYellow, NLeftRed, SLeftRed, SRightYellow, WThruRed, WRightRed, EThruRed, ELeftRed);
    }

    /** `setState_2_AllRed1`. */
    method SetState2AllRed1()
      requires Valid()
      modifies byte
      ensures byte[..] == FromSet(StateLeds(StateAllRed1))
    {
      assert StateLeds(StateAllRed1) == AllRedLeds;
      SetAllRed();
    }

    /** `setState_3_NLeftGreen`. */
    method SetState3NLeftGreen()
      requires Valid()
      modifies byte
      ensures byte[..] == FromSet(StateLeds(StateNLeftGreen))
    {
      assert StateLeds(StateNLeftGreen) == {NsMainRed, NLeftGreenArrow, SLeftRed, SRightRed, WThruRed, WRightRed, EThruRed, ELeftRed};
      ClearAllLEDs();
      DarkFromSet();
      ghost var lit: set<uint8> := {};
      LightFromSet(lit, NsMainRed);
      SetLED(NsMainRed, true);
      lit := lit + {NsMainRed};
      LightFromSet(lit, NLeftGreenArrow);
      SetLED(NLeftGreenArrow, true);
      lit := lit + {NLeftGreenArrow};
      LightFromSet(lit, SLeftRed);
      SetLED(SLeftRed, true);
      lit := lit + {SLeftRed};
      LightFromSet(lit, SRightRed);
      SetLED(SRightRed, true);
      lit := lit + {SRightRed};
      LightFromSet(lit, WThruRed);
      SetLED(WThruRed, true);
      lit := lit + {WThruRed};
      LightFromSet(lit, WRightRed);
      SetLED(WRightRed, true);
      lit := lit + {WRightRed};
      LightFromSet(lit, EThruRed);
      SetLED(EThruRed, true);
      lit := lit + {EThruRed};
      LightFromSet(lit, ELeftRed);
      SetLED(ELeftRed, true);
      lit := lit + {ELeftRed};
      Gather8(NsMainRed, NLeftGreenArrow, SLeftRed, SRightRed, WThruRed, WRightRed, EThruRed, ELeftRed);
    }

    /** `setState_4_NLeftYellow`. */
    method SetState4NLeftYellow()
      requires Valid()
      modifies byte
      ensures byte[..] == FromSet(StateLeds(StateNLeftYellow))
    {
      assert StateLeds(StateNLeftYellow) == {NsMainRed, NLeftYellowSteady, SLeftRed, SRightRed, WThruRed, WRightRed, EThruRed, ELeftRed};
      ClearAllLEDs();
      DarkFromSet();
      ghost var lit: set<uint8> := {};
      LightFromSet(lit, NsMainRed);
      SetLED(NsMainRed, true);
      lit := lit + {NsMainRed};
      LightFromSet(lit, NLeftYellowSteady);
      SetLED(NLeftYellowSteady, true);
      lit := lit + {NLeftYellowSteady};
      LightFromSet(lit, SLeftRed);
      SetLED(SLeftRed, true);
      lit := lit + {SLeftRed};
      LightFromSet(lit, SRightRed);
      SetLED(SRightRed, true);
      lit := lit + {SRightRed};
      LightFromSet(lit, WThruRed);
      SetLED(WThruRed, true);
      lit := lit + {WThruRed};
      LightFromSet(lit, WRightRed);
      SetLED(WRightRed, true);
      lit := lit + {WRightRed};
      LightFromSet(lit, EThruRed);
      SetLED(EThruRed, true);
      lit := lit + {EThruRed};
      LightFromSet(lit, ELeftRed);
      SetLED(ELeftRed, true);
      lit := lit + {ELeftRed};
      Gather8(NsMainRed, NLeftYellowSteady, SLeftRed, SRightRed, WThruRed, WRightRed, EThruRed, ELeftRed);
    }

    /** `setState_5_AllRed2`. */
    method SetState5AllRed2()
      requires Valid()
      modifies byte
      ensures byte[..] == FromSet(StateLeds(StateAllRed2))
    {
      assert StateLeds(StateAllRed2) == AllRedLeds;
      SetAllRed();
    }

    /** `setState_6_SLeftGreen`. */
    method SetState6SLeftGreen()
      requires Valid()
      modifies byte
      ensures byte[..] == FromSet(StateLeds(StateSLeftGreen))
    {
      assert StateLeds(StateSLeftGreen) == {NsMainRed, NLeftRed, SLeftGreenArrow, SRightRed, WThruRed, WRightRed, EThruRed, ELeftRed};
      ClearAllLEDs();
      DarkFromSet();
      ghost var lit: set<uint8> := {};
      LightFromSet(lit, NsMainRed);
      SetLED(NsMainRed, true);
      lit := lit + {NsMainRed};
      LightFromSet(lit, NLeftRed);
      SetLED(NLeftRed, true);
      lit := lit + {NLeftRed};
      LightFromSet(lit, SLeftGreenArrow);
      SetLED(SLeftGreenArrow, true);
      lit := lit + {SLeftGreenArrow};
      LightFromSet(lit, SRightRed);
      SetLED(SRightRed, true);
      lit := lit + {SRightRed};
      LightFromSet(lit, WThruRed);
      SetLED(WThruRed, true);
      lit := lit + {WThruRed};
      LightFromSet(lit, WRightRed);
      SetLED(WRightRed, true);
      lit := lit + {WRightRed};
      LightFromSet(lit, EThruRed);
      SetLED(EThruRed, true);
      lit := lit + {EThruRed};
      LightFromSet(lit, ELeftRed);
      SetLED(ELeftRed, true);
      lit := lit + {ELeftRed};
      Gather8(NsMainRed, NLeftRed, SLeftGreenArrow, SRightRed, WThruRed, WRightRed, EThruRed, ELeftRed);
    }

    /** `setState_7_SLeftYellow`. */
    method SetState7SLeftYellow()
      requires Valid()
      modifies byte
      ensures byte[..] == FromSet(StateLeds(StateSLeftYellow))
    {
      assert StateLeds(StateSLeftYellow) == {NsMainRed, NLeftRed, SLeftYellowSteady, SRightRed, WThruRed, WRightRed, EThruRed, ELeftRed};
      ClearAllLEDs();
      DarkFromSet();
      ghost var lit: set<uint8> := {};
      LightFromSet(lit, NsMainRed);
      SetLED(NsMainRed, true);
      lit := lit + {NsMainRed};
      LightFromSet(lit, NLeftRed);
      SetLED(NLeftRed, true);
      lit := lit + {NLeftRed};
      LightFromSet(lit, SLeftYellowSteady);
      SetLED(SLeftYellowSteady, true);
      lit := lit + {SLeftYellowSteady};
      LightFromSet(lit, SRightRed);
      SetLED(SRightRed, true);
      lit := lit + {SRightRed};
      LightFromSet(lit, WThruRed);
      SetLED(WThruRed, true);
      lit := lit + {WThruRed};
      LightFromSet(lit, WRightRed);
      SetLED(WRightRed, true);
      lit := lit + {WRightRed};
      LightFromSet(lit, EThruRed);
      SetLED(EThruRed, true);
      lit := lit + {EThruRed};
      LightFromSet(lit, ELeftRed);
      SetLED(ELeftRed, true);
      lit := lit + {ELeftRed};
      Gather8(NsMainRed, NLeftRed, SLeftYellowSteady, SRightRed, WThruRed, WRightRed, EThruRed, ELeftRed);
    }

    /** `setState_8_AllRed3`. */
    method SetState8AllRed3()
      requires Valid()
      modifies byte
      ensures byte[..] == FromSet(StateLeds(StateAllRed3))
    {
      assert StateLeds(StateAllRed3) == AllRedLeds;
      SetAllRed();
    }

    /** `setState_9_WestGreen`. */
    method SetState9WestGreen()
      requires Valid()
      modifies byte
      ensures byte[..] == FromSet(StateLeds(StateWestGreen))
    {
      assert StateLeds(StateWestGreen) == {NsMainRed, NLeftRed, SLeftRed, SRightRed, WThruGreen, WRightGreenBall, EThruRed, ELeftRed};
      ClearAllLEDs();
      DarkFromSet();
      ghost var lit: set<uint8> := {};
      LightFromSet(lit, NsMainRed);
      SetLED(NsMainRed, true);
      lit := lit + {NsMainRed};
      LightFromSet(lit, NLeftRed);
      SetLED(NLeftRed, true);
      lit := lit + {NLeftRed};
      LightFromSet(lit, SLeftRed);
      SetLED(SLeftRed, true);
      lit := lit + {SLeftRed};
      LightFromSet(lit, SRightRed);
      SetLED(SRightRed, true);
      lit := lit + {SRightRed};
      LightFromSet(lit, WThruGreen);
      SetLED(WThruGreen, true);
      lit := lit + {WThruGreen};
      LightFromSet(lit, WRightGreenBall);
      SetLED(WRightGreenBall, true);
      lit := lit + {WRightGreenBall};
      LightFromSet(lit, EThruRed);
      SetLED(EThruRed, true);
      lit := lit + {EThruRed};
      LightFromSet(lit, ELeftRed);
      SetLED(ELeftRed, true);
      lit := lit + {ELeftRed};
      Gather8(NsMainRed, NLeftRed, SLeftRed, SRightRed, WThruGreen, WRightGreenBall, EThruRed, ELeftRed);
    }

    /** `setState_10_WestYellow`. */
    method SetState10WestYellow()
      requires Valid()
      modifies byte
      ensures byte[..] == FromSet(StateLeds(StateWestYellow))
    {
      assert StateLeds(StateWestYellow) == {NsMainRed, NLeftRed, SLeftRed, SRightRed, WThruYellow, WRightYellow, EThruRed, ELeftRed};
      ClearAllLEDs();
      DarkFromSet();
      ghost var lit: set<uint8> := {};
      LightFromSet(lit, NsMainRed);
      SetLED(NsMainRed, true);
      lit := lit + {NsMainRed};
      LightFromSet(lit, NLeftRed);
      SetLED(NLeftRed, true);
      lit := lit + {NLeftRed};
      LightFromSet(lit, SLeftRed);
      SetLED(SLeftRed, true);
      lit := lit + {SLeftRed};
      LightFromSet(lit, SRightRed);
      SetLED(SRightRed, true);
      lit := lit + {SRightRed};
      LightFromSet(lit, WThruYellow);
      SetLED(WThruYellow, true);
      lit := lit + {WThruYellow};
      LightFromSet(lit, WRightYellow);
      SetLED(WRightYellow, true);
      lit := lit + {WRightYellow};
      LightFromSet(lit, EThruRed);
      SetLED(EThruRed, true);
      lit := lit + {EThruRed};
      LightFromSet(lit, ELeftRed);
      SetLED(ELeftRed, true);
      lit := lit + {ELeftRed};
      Gather8(NsMainRed, NLeftRed, SLeftRed, SRightRed, WThruYellow, WRightYellow, EThruRed, ELeftRed);
    }

    /** `setState_11_AllRed4`. */
    method SetState11AllRed4()
      requires Valid()
      modifies byte
      ensures byte[..] == FromSet(StateLeds(StateAllRed4))
    {
      assert StateLeds(StateAllRed4) == AllRedLeds;
      SetAllRed();
    }

    /** `setState_12_EastThruGreen`. */
    method SetState12EastThruGreen()
      requires Valid()
      modifies byte
      ensures byte[..] == FromSet(StateLeds(StateEastThruGreen))
    {
      assert StateLeds(StateEastThruGreen) == {NsMainRed, NLeftRed, SLeftRed, SRightRed, WThruRed, WRightRed, EThruGreen, ELeftRed};
      ClearAllLEDs();
      DarkFromSet();
      ghost var lit: set<uint8> := {};
      LightFromSet(lit, NsMainRed);
      SetLED(NsMainRed, true);
      lit := lit + {NsMainRed};
      LightFromSet(lit, NLeftRed);
      SetLED(NLeftRed, true);
      lit := lit + {NLeftRed};
      LightFromSet(lit, SLeftRed);
      SetLED(SLeftRed, true);
      lit := lit + {SLeftRed};
      LightFromSet(lit, SRightRed);
      SetLED(SRightRed, true);
      lit := lit + {SRightRed};
      LightFromSet(lit, WThruRed);
      SetLED(WThruRed, true);
      lit := lit + {WThruRed};
      LightFromSet(lit, WRightRed);
      SetLED(WRightRed, true);
      lit := lit + {WRightRed};
      LightFromSet(lit, EThruGreen);
      SetLED(EThruGreen, true);
      lit := lit + {EThruGreen};
      LightFromSet(lit, ELeftRed);
      SetLED(ELeftRed, true);
      lit := lit + {ELeftRed};
      Gather8(NsMainRed, NLeftRed, SLeftRed, SRightRed, WThruRed, WRightRed, EThruGreen, ELeftRed);
    }

    /** `setState_13_EastThruYellow`. */
    method SetState13EastThruYellow()
      requires Valid()
      modifies byte
      ensures byte[..] == FromSet(StateLeds(StateEastThruYellow))
    {
      assert StateLeds(StateEastThruYellow) == {NsMainRed, NLeftRed, SLeftRed, SRightRed, WThruRed, WRightRed, EThruYellow, ELeftRed};
      ClearAllLEDs();
      DarkFromSet();
      ghost var lit: set<uint8> := {};
      LightFromSet(lit, NsMainRed);
      SetLED(NsMainRed, true);
      lit := lit + {NsMainRed};
      LightFromSet(lit, NLeftRed);
      SetLED(NLeftRed, true);
      lit := lit + {NLeftRed};
      LightFromSet(lit, SLeftRed);
      SetLED(SLeftRed, true);
      lit := lit + {SLeftRed};
      LightFromSet(lit, SRightRed);
      SetLED(SRightRed, true);
      lit := lit + {SRightRed};
      LightFromSet(lit, WThruRed);
      SetLED(WThruRed, true);
      lit := lit + {WThruRed};
      LightFromSet(lit, WRightRed);
      SetLED(WRightRed, true);
      lit := lit + {WRightRed};
      LightFromSet(lit, EThruYellow);
      SetLED(EThruYellow, true);
      lit := lit + {EThruYellow};
      LightFromSet(lit, ELeftRed);
      SetLED(ELeftRed, true);
      lit := lit + {ELeftRed};
      Gather8(NsMainRed, NLeftRed, SLeftRed, SRightRed, WThruRed, WRightRed, EThruYellow, ELeftRed);
    }

    /** `setState_14_AllRed5`. */
    method SetState14AllRed5()
      requires Valid()
      modifies byte
      ensures byte[..] == FromSet(StateLeds(StateAllRed5))
    {
      assert StateLeds(StateAllRed5) == AllRedLeds;
      SetAllRed();
    }

    /** `setState_15_ELeftGreen`. */
    method SetState15ELeftGreen()
      requires Valid()
      modifies byte
      ensures byte[..] == FromSet(StateLeds(StateELeftGreen))
    {
      assert StateLeds(StateELeftGreen) == {NsMainRed, NLeftRed, SLeftRed, SRightRed, WThruRed, WRightRed, EThruRed, ELeftGreenArrow};
      ClearAllLEDs();
      DarkFromSet();
      ghost var lit: set<uint8> := {};
      LightFromSet(lit, NsMainRed);
      SetLED(NsMainRed, true);
      lit := lit + {NsMainRed};
      LightFromSet(lit, NLeftRed);
      SetLED(NLeftRed, true);
      lit := lit + {NLeftRed};
      LightFromSet(lit, SLeftRed);
      SetLED(SLeftRed, true);
      lit := lit + {SLeftRed};
      LightFromSet(lit, SRightRed);
      SetLED(SRightRed, true);
      lit := lit + {SRightRed};
      LightFromSet(lit, WThruRed);
      SetLED(WThruRed, true);
      lit := lit + {WThruRed};
      LightFromSet(lit, WRightRed);
      SetLED(WRightRed, true);
      lit := lit + {WRightRed};
      LightFromSet(lit, EThruRed);
      SetLED(EThruRed, true);
      lit := lit + {EThruRed};
      LightFromSet(lit, ELeftGreenArrow);
      SetLED(ELeftGreenArrow, true);
      lit := lit + {ELeftGreenArrow};
      Gather8(NsMainRed, NLeftRed, SLeftRed, SRightRed, WThruRed, WRightRed, EThruRed, ELeftGreenArrow);
    }

    /** `setState_16_ELeftYellow`. */
    method SetState16ELeftYellow()
      requires Valid()
      modifies byte
      ensures byte[..] == FromSet(StateLeds(StateELeftYellow))
    {
      assert StateLeds(StateELeftYellow) == {NsMainRed, NLeftRed, SLeftRed, SRightRed, WThruRed, WRightRed, EThruRed, ELeftYellow};
      ClearAllLEDs();
      DarkFromSet();
      ghost var lit: set<uint8> := {};
      LightFromSet(lit, NsMainRed);
      SetLED(NsMainRed, true);
      lit := lit + {NsMainRed};
      LightFromSet(lit, NLeftRed);
      SetLED(NLeftRed, true);
      lit := lit + {NLeftRed};
      LightFromSet(lit, SLeftRed);
      SetLED(SLeftRed, true);
      lit := lit + {SLeftRed};
      LightFromSet(lit, SRightRed);
      SetLED(SRightRed, true);
      lit := lit + {SRightRed};
      LightFromSet(lit, WThruRed);
      SetLED(WThruRed, true);
      lit := lit + {WThruRed};
      LightFromSet(lit, WRightRed);
      SetLED(WRightRed, true);
      lit := lit + {WRightRed};
      LightFromSet(lit, EThruRed);
      SetLED(EThruRed, true);
      lit := lit + {EThruRed};
      LightFromSet(lit, ELeftYellow);
      SetLED(ELeftYellow, true);
      lit := lit + {ELeftYellow};
      Gather8(NsMainRed, NLeftRed, SLeftRed, SRightRed, WThruRed, WRightRed, EThruRed, ELeftYellow);
    }

    /** `setState_17_AllRed6`. */
    method SetState17AllRed6()
      requires Valid()
      modifies byte
      ensures byte[..] == FromSet(StateLeds(StateAllRed6))
    {
      assert StateLeds(StateAllRed6) == AllRedLeds;
      SetAllRed();
    }

    /** `setState_18_NorthPriority`. */
    method SetState18NorthPriority()
      requires Valid()
      modifies byte
      ensures byte[..] == FromSet(StateLeds(StateNorthPriority))
    {
      assert StateLeds(StateNorthPriority) == {NsMainGreen, NLeftGreenArrow, SLeftRed, SRightRed, WThruRed, WRightRed, EThruRed, ELeftRed};
      ClearAllLEDs();
      DarkFromSet();
      ghost var lit: set<uint8> := {};
      LightFromSet(lit, NsMainGreen);
      SetLED(NsMainGreen, true);
      lit := lit + {NsMainGreen};
      LightFromSet(lit, NLeftGreenArrow);
      SetLED(NLeftGreenArrow, true);
      lit := lit + {NLeftGreenArrow};
      LightFromSet(lit, SLeftRed);
      SetLED(SLeftRed, true);
      lit := lit + {SLeftRed};
      LightFromSet(lit, SRightRed);
      SetLED(SRightRed, true);
      lit := lit + {SRightRed};
      LightFromSet(lit, WThruRed);
      SetLED(WThruRed, true);
      lit := lit + {WThruRed};
      LightFromSet(lit, WRightRed);
      SetLED(WRightRed, true);
      lit := lit + {WRightRed};
      LightFromSet(lit, EThruRed);
      SetLED(EThruRed, true);
      lit := lit + {EThruRed};
      LightFromSet(lit, ELeftRed);
      SetLED(ELeftRed, true);
      lit := lit + {ELeftRed};
      Gather8(NsMainGreen, NLeftGreenArrow, SLeftRed, SRightRed, WThruRed, WRightRed, EThruRed, ELeftRed);
    }

    /** `setState_19_NArrowEnding`. */
    method SetState19NArrowEnding()
      requires Valid()
      modifies byte
      ensures byte[..] == FromSet(StateLeds(StateNArrowEnding))
    {
      assert StateLeds(StateNArrowEnding) == {NsMainGreen, NLeftYellowSteady, SLeftRed, SRightRed, WThruRed, WRightRed, EThruRed, ELeftRed};
      ClearAllLEDs();
      DarkFromSet();
      ghost var lit: set<uint8> := {};
      LightFromSet(lit, NsMainGreen);
      SetLED(NsMainGreen, true);
      lit := lit + {NsMainGreen};
      LightFromSet(lit, NLeftYellowSteady);
      SetLED(NLeftYellowSteady, true);
      lit := lit + {NLeftYellowSteady};
      LightFromSet(lit, SLeftRed);
      SetLED(SLeftRed, true);
      lit := lit + {SLeftRed};
      LightFromSet(lit, SRightRed);
      SetLED(SRightRed, true);
      lit := lit + {SRightRed};
      LightFromSet(lit, WThruRed);
      SetLED(WThruRed, true);
      lit := lit + {WThruRed};
      LightFromSet(lit, WRightRed);
      SetLED(WRightRed, true);
      lit := lit + {WRightRed};
      LightFromSet(lit, EThruRed);
      SetLED(EThruRed, true);
      lit := lit + {EThruRed};
      LightFromSet(lit, ELeftRed);
      SetLED(ELeftRed, true);
      lit := lit + {ELeftRed};
      Gather8(NsMainGreen, NLeftYellowSteady, SLeftRed, SRightRed, WThruRed, WRightRed, EThruRed, ELeftRed);
    }

    /** `setState_20_NThruBonus`. */
    method SetState20NThruBonus()
      requires Valid()
      modifies byte
      ensures byte[..] == FromSet(StateLeds(StateNThruBonus))
    {
      assert StateLeds(StateNThruBonus) == {NsMainGreen, NLeftRed, SLeftRed, SRightRed, WThruRed, WRightRed, EThruRed, ELeftRed};
      ClearAllLEDs();
      DarkFromSet();
      ghost var lit: set<uint8> := {};
      LightFromSet(lit, NsMainGreen);
      SetLED(NsMainGreen, true);
      lit := lit + {NsMainGreen};
      LightFromSet(lit, NLeftRed);
      SetLED(NLeftRed, true);
      lit := lit + {NLeftRed};
      LightFromSet(lit, SLeftRed);
      SetLED(SLeftRed, true);
      lit := lit + {SLeftRed};
      LightFromSet(lit, SRightRed);
      SetLED(SRightRed, true);
      lit := lit + {SRightRed};
      LightFromSet(lit, WThruRed);
      SetLED(WThruRed, true);
      lit := lit + {WThruRed};
      LightFromSet(lit, WRightRed);
      SetLED(WRightRed, true);
      lit := lit + {WRightRed};
      LightFromSet(lit, EThruRed);
      SetLED(EThruRed, true);
      lit := lit + {EThruRed};
      LightFromSet(lit, ELeftRed);
      SetLED(ELeftRed, true);
      lit := lit + {ELeftRed};
      Gather8(NsMainGreen, NLeftRed, SLeftRed, SRightRed, WThruRed, WRightRed, EThruRed, ELeftRed);
    }

    /** `setState_21_NThruYellow`. */
    method SetState21NThruYellow()
      requires Valid()
      modifies byte
      ensures byte[..] == FromSet(StateLeds(StateNThruYellow))
    {
      assert StateLeds(StateNThruYellow) == {NsMainYellow, NLeftRed, SLeftRed, SRightRed, WThruRed, WRightRed, EThruRed, ELeftRed};
      ClearAllLEDs();
      DarkFromSet();
      ghost var lit: set<uint8> := {};
      LightFromSet(lit, NsMainYellow);
      SetLED(NsMainYellow, true);
      lit := lit + {NsMainYellow};
      LightFromSet(lit, NLeftRed);
      SetLED(NLeftRed, true);
      lit := lit + {NLeftRed};
      LightFromSet(lit, SLeftRed);
      SetLED(SLeftRed, true);
      lit := lit + {SLeftRed};
      LightFromSet(lit, SRightRed);
      SetLED(SRightRed, true);
      lit := lit + {SRightRed};
      LightFromSet(lit, WThruRed);
      SetLED(WThruRed, true);
      lit := lit + {WThruRed};
      LightFromSet(lit, WRightRed);
      SetLED(WRightRed, true);
      lit := lit + {WRightRed};
      LightFromSet(lit, EThruRed);
      SetLED(EThruRed, true);
      lit := lit + {EThruRed};
      LightFromSet(lit, ELeftRed);
      SetLED(ELeftRed, true);
      lit := lit + {ELeftRed};
      Gather8(NsMainYellow, NLeftRed, SLeftRed, SRightRed, WThruRed, WRightRed, EThruRed, ELeftRed);
    }

    /** `setState_22_AllRedHT1`. */
    method SetState22AllRedHT1()
      requires Valid()
      modifies byte
      ensures byte[..] == FromSet(StateLeds(StateAllRedHt1))
    {
      assert StateLeds(StateAllRedHt1) == AllRedLeds;
      SetAllRed();
    }

    /** `setState_23_SouthGreenHT`. */
    method SetState23SouthGreenHT()
      requires Valid()
      modifies byte
      ensures byte[..] == FromSet(StateLeds(StateSouthGreenHt))
    {
      assert StateLeds(StateSouthGreenHt) == {NsMainGreen, NLeftRed, SLeftRed, SRightGreenBall, WThruRed, WRightRed, EThruRed, ELeftRed};
      ClearAllLEDs();
      DarkFromSet();
      ghost var lit: set<uint8> := {};
      LightFromSet(lit, NsMainGreen);
      SetLED(NsMainGreen, true);
      lit := lit + {NsMainGreen};
      LightFromSet(lit, NLeftRed);
      SetLED(NLeftRed, true);
      lit := lit + {NLeftRed};
      LightFromSet(lit, SLeftRed);
      SetLED(SLeftRed, true);
      lit := lit + {SLeftRed};
      LightFromSet(lit, SRightGreenBall);
      SetLED(SRightGreenBall, true);
      lit := lit + {SRightGreenBall};
      LightFromSet(lit, WThruRed);
      SetLED(WThruRed, true);
      lit := lit + {WThruRed};
      LightFromSet(lit, WRightRed);
      SetLED(WRightRed, true);
      lit := lit + {WRightRed};
      LightFromSet(lit, EThruRed);
      SetLED(EThruRed, true);
      lit := lit + {EThruRed};
      LightFromSet(lit, ELeftRed);
      SetLED(ELeftRed, true);
      lit := lit + {ELeftRed};
      Gather8(NsMainGreen, NLeftRed, SLeftRed, SRightGreenBall, WThruRed, WRightRed, EThruRed, ELeftRed);
    }

    /** `setState_24_SouthYellowHT`. */
    method SetState24SouthYellowHT()
      requires Valid()
      modifies byte
      ensures byte[..] == FromSet(StateLeds(StateSouthYellowHt))
    {
      assert StateLeds(StateSouthYellowHt) == {NsMainYellow, NLeftRed, SLeftRed, SRightYellow, WThruRed, WRightRed, EThruRed, ELeftRed};
      ClearAllLEDs();
      DarkFromSet();
      ghost var lit: set<uint8> := {};
      LightFromSet(lit, NsMainYellow);
      SetLED(NsMainYellow, true);
      lit := lit + {NsMainYellow};
      LightFromSet(lit, NLeftRed);
      SetLED(NLeftRed, true);
      lit := lit + {NLeftRed};
      LightFromSet(lit, SLeftRed);
      SetLED(SLeftRed, true);
      lit := lit + {SLeftRed};
      LightFromSet(lit, SRightYellow);
      SetLED(SRightYellow, true);
      lit := lit + {SRightYellow};
      LightFromSet(lit, WThruRed);
      SetLED(WThruRed, true);
      lit := lit + {WThruRed};
      LightFromSet(lit, WRightRed);
      SetLED(WRightRed, true);
      lit := lit + {WRightRed};
      LightFromSet(lit, EThruRed);
      SetLED(EThruRed, true);
      lit := lit + {EThruRed};
      LightFromSet(lit, ELeftRed);
      SetLED(ELeftRed, true);
      lit := lit + {ELeftRed};
      Gather8(NsMainYellow, NLeftRed, SLeftRed, SRightYellow, WThruRed, WRightRed, EThruRed, ELeftRed);
    }

    /** `setState_25_AllRedHT2`. */
    method SetState25AllRedHT2()
      requires Valid()
      modifies byte
      ensures byte[..] == FromSet(StateLeds(StateAllRedHt2))
    {
      assert StateLeds(StateAllRedHt2) == AllRedLeds;
      SetAllRed();
    }

    /** `setState_26_SLeftGreenHT`. */
    method SetState26SLeftGreenHT()
      requires Valid()
      modifies byte
      ensures byte[..] == FromSet(StateLeds(StateSLeftGreenHt))
    {
      assert StateLeds(StateSLeftGreenHt) == {NsMainRed, NLeftRed, SLeftGreenArrow, SRightRed, WThruRed, WRightRed, EThruRed, ELeftRed};
      ClearAllLEDs();
      DarkFromSet();
      ghost var lit: set<uint8> := {};
      LightFromSet(lit, NsMainRed);
      SetLED(NsMainRed, true);
      lit := lit + {NsMainRed};
      LightFromSet(lit, NLeftRed);
      SetLED(NLeftRed, true);
      lit := lit + {NLeftRed};
      LightFromSet(lit, SLeftGreenArrow);
      SetLED(SLeftGreenArrow, true);
      lit := lit + {SLeftGreenArrow};
      LightFromSet(lit, SRightRed);
      SetLED(SRightRed, true);
      lit := lit + {SRightRed};
      LightFromSet(lit, WThruRed);
      SetLED(WThruRed, true);
      lit := lit + {WThruRed};
      LightFromSet(lit, WRightRed);
      SetLED(WRightRed, true);
      lit := lit + {WRightRed};
      LightFromSet(lit, EThruRed);
      SetLED(EThruRed, true);
      lit := lit + {EThruRed};
      LightFromSet(lit, ELeftRed);
      SetLED(ELeftRed, true);
      lit := lit + {ELeftRed};
      Gather8(NsMainRed, NLeftRed, SLeftGreenArrow, SRightRed, WThruRed, WRightRed, EThruRed, ELeftRed);
    }

    /** `setState_27_SLeftYellowHT`. */
    method SetState27SLeftYellowHT()
      requires Valid()
      modifies byte
      ensures byte[..] == FromSet(StateLeds(StateSLeftYellowHt))
    {
      assert StateLeds(StateSLeftYellowHt) == {NsMainRed, NLeftRed, SLeftYellowSteady, SRightRed, WThruRed, WRightRed, EThruRed, ELeftRed};
      ClearAllLEDs();
      DarkFromSet();
      ghost var lit: set<uint8> := {};
      LightFromSet(lit, NsMainRed);
      SetLED(NsMainRed, true);
      lit := lit + {NsMainRed};
      LightFromSet(lit, NLeftRed);
      SetLED(NLeftRed, true);
      lit := lit + {NLeftRed};
      LightFromSet(lit, SLeftYellowSteady);
      SetLED(SLeftYellowSteady, true);
      lit := lit + {SLeftYellowSteady};
      LightFromSet(lit, SRightRed);
      SetLED(SRightRed, true);
      lit := lit + {SRightRed};
      LightFromSet(lit, WThruRed);
      SetLED(WThruRed, true);
      lit := lit + {WThruRed};
      LightFromSet(lit, WRightRed);
      SetLED(WRightRed, true);
      lit := lit + {WRightRed};
      LightFromSet(lit, EThruRed);
      SetLED(EThruRed, true);
      lit := lit + {EThruRed};
      LightFromSet(lit, ELeftRed);
      SetLED(ELeftRed, true);
      lit := lit + {ELeftRed};
      Gather8(NsMainRed, NLeftRed, SLeftYellowSteady, SRightRed, WThruRed, WRightRed, EThruRed, ELeftRed);
    }

    /** `setState_28_AllRedHT3`. */
    method SetState28AllRedHT3()
      requires Valid()
      modifies byte
      ensures byte[..] == FromSet(StateLeds(StateAllRedHt3))
    {
      assert StateLeds(StateAllRedHt3) == AllRedLeds;
      SetAllRed();
    }

    /** `setState_29_WestGreenHT`. */
    method SetState29WestGreenHT()
      requires Valid()
      modifies byte
      ensures byte[..] == FromSet(StateLeds(StateWestGreenHt))
    {
      assert StateLeds(StateWestGreenHt) == {NsMainRed, NLeftRed, SLeftRed, SRightRed, WThruGreen, WRightGreenBall, EThruRed, ELeftRed};
      ClearAllLEDs();
      DarkFromSet();
      ghost var lit: set<uint8> := {};
      LightFromSet(lit, NsMainRed);
      SetLED(NsMainRed, true);
      lit := lit + {NsMainRed};
      LightFromSet(lit, NLeftRed);
      SetLED(NLeftRed, true);
      lit := lit + {NLeftRed};
      LightFromSet(lit, SLeftRed);
      SetLED(SLeftRed, true);
      lit := lit + {SLeftRed};
      LightFromSet(lit, SRightRed);
      SetLED(SRightRed, true);
      lit := lit + {SRightRed};
      LightFromSet(lit, WThruGreen);
      SetLED(WThruGreen, true);
      lit := lit + {WThruGreen};
      LightFromSet(lit, WRightGreenBall);
      SetLED(WRightGreenBall, true);
      lit := lit + {WRightGreenBall};
      LightFromSet(lit, EThruRed);
      SetLED(EThruRed, true);
      lit := lit + {EThruRed};
      LightFromSet(lit, ELeftRed);
      SetLED(ELeftRed, true);
      lit := lit + {ELeftRed};
      Gather8(NsMainRed, NLeftRed, SLeftRed, SRightRed, WThruGreen, WRightGreenBall, EThruRed, ELeftRed);
    }

    /** `setState_30_WestYellowHT`. */
    method SetState30WestYellowHT()
      requires Valid()
      modifies byte
      ensures byte[..] == FromSet(StateLeds(StateWestYellowHt))
    {
      assert StateLeds(StateWestYellowHt) == {NsMainRed, NLeftRed, SLeftRed, SRightRed, WThruYellow, WRightYellow, EThruRed, ELeftRed};
      ClearAllLEDs();
      DarkFromSet();
      ghost var lit: set<uint8> := {};
      LightFromSet(lit, NsMainRed);
      SetLED(NsMainRed, true);
      lit := lit + {NsMainRed};
      LightFromSet(lit, NLeftRed);
      SetLED(NLeftRed, true);
      lit := lit + {NLeftRed};
      LightFromSet(lit, SLeftRed);
      SetLED(SLeftRed, true);
      lit := lit + {SLeftRed};
      LightFromSet(lit, SRightRed);
      SetLED(SRightRed, true);
      lit := lit + {SRightRed};
      LightFromSet(lit, WThruYellow);
      SetLED(WThruYellow, true);
      lit := lit + {WThruYellow};
      LightFromSet(lit, WRightYellow);
      SetLED(WRightYellow, true);
      lit := lit + {WRightYellow};
      LightFromSet(lit, EThruRed);
      SetLED(EThruRed, true);
      lit := lit + {EThruRed};
      LightFromSet(lit, ELeftRed);
      SetLED(ELeftRed, true);
      lit := lit + {ELeftRed};
      Gather8(NsMainRed, NLeftRed, SLeftRed, SRightRed, WThruYellow, WRightYellow, EThruRed, ELeftRed);
    }

    /** `setState_31_AllRedHT4`. */
    method SetState31AllRedHT4()
      requires Valid()
      modifies byte
      ensures byte[..] == FromSet(StateLeds(StateAllRedHt4))
    {
      assert StateLeds(StateAllRedHt4) == AllRedLeds;
      SetAllRed();
    }

    /** `setState_32_EastThruGreenHT`. */
    method SetState32EastThruGreenHT()
      requires Valid()
      modifies byte
      ensures byte[..] == FromSet(StateLeds(StateEastThruGreenHt))
    {
      assert StateLeds(StateEastThruGreenHt) == {NsMainRed, NLeftRed, SLeftRed, SRightRed, WThruRed, WRightRed, EThruGreen, ELeftRed};
      ClearAllLEDs();
      DarkFromSet();
      ghost var lit: set<uint8> := {};
      LightFromSet(lit, NsMainRed);
      SetLED(NsMainRed, true);
      lit := lit + {NsMainRed};
      LightFromSet(lit, NLeftRed);
      SetLED(NLeftRed, true);
      lit := lit + {NLeftRed};
      LightFromSet(lit, SLeftRed);
      SetLED(SLeftRed, true);
      lit := lit + {SLeftRed};
      LightFromSet(lit, SRightRed);
      SetLED(SRightRed, true);
      lit := lit + {SRightRed};
      LightFromSet(lit, WThruRed);
      SetLED(WThruRed, true);
      lit := lit + {WThruRed};
      LightFromSet(lit, WRightRed);
      SetLED(WRightRed, true);
      lit := lit + {WRightRed};
      LightFromSet(lit, EThruGreen);
      SetLED(EThruGreen, true);
      lit := lit + {EThruGreen};
      LightFromSet(lit, ELeftRed);
      SetLED(ELeftRed, true);
      lit := lit + {ELeftRed};
      Gather8(NsMainRed, NLeftRed, SLeftRed, SRightRed, WThruRed, WRightRed, EThruGreen, ELeftRed);
    }

    /** `setState_33_EastThruYellowHT`. */
    method SetState33EastThruYellowHT()
      requires Valid()
      modifies byte
      ensures byte[..] == FromSet(StateLeds(StateEastThruYellowHt))
    {
      assert StateLeds(StateEastThruYellowHt) == {NsMainRed, NLeftRed, SLeftRed, SRightRed, WThruRed, WRightRed, EThruYellow, ELeftRed};
      ClearAllLEDs();
      DarkFromSet();
      ghost var lit: set<uint8> := {};
      LightFromSet(lit, NsMainRed);
      SetLED(NsMainRed, true);
      lit := lit + {NsMainRed};
      LightFromSet(lit, NLeftRed);
      SetLED(NLeftRed, true);
      lit := lit + {NLeftRed};
      LightFromSet(lit, SLeftRed);
      SetLED(SLeftRed, true);
      lit := lit + {SLeftRed};
      LightFromSet(lit, SRightRed);
      SetLED(SRightRed, true);
      lit := lit + {SRightRed};
      LightFromSet(lit, WThruRed);
      SetLED(WThruRed, true);
      lit := lit + {WThruRed};
      LightFromSet(lit, WRightRed);
      SetLED(WRightRed, true);
      lit := lit + {WRightRed};
      LightFromSet(lit, EThruYellow);
      SetLED(EThruYellow, true);
      lit := lit + {EThruYellow};
      LightFromSet(lit, ELeftRed);
      SetLED(ELeftRed, true);
      lit := lit + {ELeftRed};
      Gather8(NsMainRed, NLeftRed, SLeftRed, SRightRed, WThruRed, WRightRed, EThruYellow, ELeftRed);
    }

    /** `setState_34_AllRedHT5`. */
    method SetState34AllRedHT5()
      requires Valid()
      modifies byte
      ensures byte[..] == FromSet(StateLeds(StateAllRedHt5))
    {
      assert StateLeds(StateAllRedHt5) == AllRedLeds;
      SetAllRed();
    }

    /** `setState_35_ELeftGreenHT`. */
    method SetState35ELeftGreenHT()
      requires Valid()
      modifies byte
      ensures byte[..] == FromSet(StateLeds(StateELeftGreenHt))
    {
      assert StateLeds(StateELeftGreenHt) == {NsMainRed, NLeftRed, SLeftRed, SRightRed, WThruRed, WRightRed, EThruRed, ELeftGreenArrow};
      ClearAllLEDs();
      DarkFromSet();
      ghost var lit: set<uint8> := {};
      LightFromSet(lit, NsMainRed);
      SetLED(NsMainRed, true);
      lit := lit + {NsMainRed};
      LightFromSet(lit, NLeftRed);
      SetLED(NLeftRed, true);
      lit := lit + {NLeftRed};
      LightFromSet(lit, SLeftRed);
      SetLED(SLeftRed, true);
      lit := lit + {SLeftRed};
      LightFromSet(lit, SRightRed);
      SetLED(SRightRed, true);
      lit := lit + {SRightRed};
      LightFromSet(lit, WThruRed);
      SetLED(WThruRed, true);
      lit := lit + {WThruRed};
      LightFromSet(lit, WRightRed);
      SetLED(WRightRed, true);
      lit := lit + {WRightRed};
      LightFromSet(lit, EThruRed);
      SetLED(EThruRed, true);
      lit := lit + {EThruRed};
      LightFromSet(lit, ELeftGreenArrow);
      SetLED(ELeftGreenArrow, true);
      lit := lit + {ELeftGreenArrow};
      Gather8(NsMainRed, NLeftRed, SLeftRed, SRightRed, WThruRed, WRightRed, EThruRed, ELeftGreenArrow);
    }

    /** `setState_36_ELeftYellowHT`. */
    method SetState36ELeftYellowHT()
      requires Valid()
      modifies byte
      ensures byte[..] == FromSet(StateLeds(StateELeftYellowHt))
    {
      assert StateLeds(StateELeftYellowHt) == {NsMainRed, NLeftRed, SLeftRed, SRightRed, WThruRed, WRightRed, EThruRed, ELeftYellow};
      ClearAllLEDs();
      DarkFromSet();
      ghost var lit: set<uint8> := {};
      LightFromSet(lit, NsMainRed);
      SetLED(NsMainRed, true);
      lit := lit + {NsMainRed};
      LightFromSet(lit, NLeftRed);
      SetLED(NLeftRed, true);
      lit := lit + {NLeftRed};
      LightFromSet(lit, SLeftRed);
      SetLED(SLeftRed, true);
      lit := lit + {SLeftRed};
      LightFromSet(lit, SRightRed);
      SetLED(SRightRed, true);
      lit := lit + {SRightRed};
      LightFromSet(lit, WThruRed);
      SetLED(WThruRed, true);
      lit := lit + {WThruRed};
      LightFromSet(lit, WRightRed);
      SetLED(WRightRed, true);
      lit := lit + {WRightRed};
      LightFromSet(lit, EThruRed);
      SetLED(EThruRed, true);
      lit := lit + {EThruRed};
      LightFromSet(lit, ELeftYellow);
      SetLED(ELeftYellow, true);
      lit := lit + {ELeftYellow};
      Gather8(NsMainRed, NLeftRed, SLeftRed, SRightRed, WThruRed, WRightRed, EThruRed, ELeftYellow);
    }

    /** `setState_37_NightOff`. */
    method SetState37NightOff()
      requires Valid()
      modifies byte
      ensures byte[..] == FromSet(StateLeds(StateNightOff))
    {
      ClearAllLEDs();
      DarkFromSet();
      ghost var lit: set<uint8> := {};
      assert StateLeds(StateNightOff) == lit;
    }

    /** `setState_38_NightOn`. */
    method SetState38NightOn()
      requires Valid()
      modifies byte
      ensures byte[..] == FromSet(StateLeds(StateNightOn))
    {
      assert StateLeds(StateNightOn) == {NsMainGreen, WThruRed, WRightRed, EThruRed};
      ClearAllLEDs();
      DarkFromSet();
      ghost var lit: set<uint8> := {};
      LightFromSet(lit, NsMainGreen);
      SetLED(NsMainGreen, true);
      lit := lit + {NsMainGreen};
      LightFromSet(lit, WThruRed);
      SetLED(WThruRed, true);
      lit := lit + {WThruRed};
      LightFromSet(lit, WRightRed);
      SetLED(WRightRed, true);
      lit := lit + {WRightRed};
      LightFromSet(lit, EThruRed);
      SetLED(EThruRed, true);
      lit := lit + {EThruRed};
      Gather4(NsMainGreen, WThruRed, WRightRed, EThruRed);
    }

    /** `setState_39_EmergWarning`. */
    method SetState39EmergWarning()
      requires Valid()
      modifies byte
      ensures byte[..] == FromSet(StateLeds(StateEmergWarning))
    {
      assert StateLeds(StateEmergWarning) == AllYellowLeds;
      SetAllYellow();
    }

    /** `setState_40_EmergHold`. */
    method SetState40EmergHold()
      requires Valid()
      modifies byte
      ensures byte[..] == FromSet(StateLeds(StateEmergHold))
    {
      assert StateLeds(StateEmergHold) == AllRedLeds;
      SetAllRed();
    }

    /** `setState_41_EmergClearing`. */
    method SetState41EmergClearing()
      requires Valid()
      modifies byte
      ensures byte[..] == FromSet(StateLeds(StateEmergClearing))
    {
      assert StateLeds(StateEmergClearing) == AllRedLeds;
      SetAllRed();
    }

    /** `setState_42_EmergReturn`. */
    method SetState42EmergReturn()
      requires Valid()
      modifies byte
      ensures byte[..] == FromSet(StateLeds(StateEmergReturn))
    {
      assert StateLeds(StateEmergReturn) == AllRedLeds;
      SetAllRed();
    }

    /** `executeState`: one `setState_*` per state, `setAllRed` for any other value. */
    method ExecuteState(currentState: TrafficState)
      requires Valid()
      modifies byte
      ensures byte[..] == FromSet(StateLeds(currentState))
    {
      match currentState {
        case StateUnivGreen => SetState0UnivGreen();
        case StateUnivYellow => SetState1UnivYellow();
        case StateAllRed1 => SetState2AllRed1();
        case StateNLeftGreen => SetState3NLeftGreen();
        case StateNLeftYellow => SetState4NLeftYellow();
        case StateAllRed2 => SetState5AllRed2();
        case StateSLeftGreen => SetState6SLeftGreen();
        case StateSLeftYellow => SetState7SLeftYellow();
        case StateAllRed3 => SetState8AllRed3();
        case StateWestGreen => SetState9WestGreen();
        case StateWestYellow => SetState10WestYellow();
        case StateAllRed4 => SetState11AllRed4();
        case StateEastThruGreen => SetState12EastThruGreen();
        case StateEastThruYellow => SetState13EastThruYellow();
        case StateAllRed5 => SetState14AllRed5();
        case StateELeftGreen => SetState15ELeftGreen();
        case StateELeftYellow => SetState16ELeftYellow();
        case StateAllRed6 => SetState17AllRed6();
        case StateNorthPriority => SetState18NorthPriority();
        case StateNArrowEnding => SetState19NArrowEnding();
        case StateNThruBonus => SetState20NThruBonus();
        case StateNThruYellow => SetState21NThruYellow();
        case StateAllRedHt1 => SetState22AllRedHT1();
        case StateSouthGreenHt => SetState23SouthGreenHT();
        case StateSouthYellowHt => SetState24SouthYellowHT();
        case StateAllRedHt2 => SetState25AllRedHT2();
        case StateSLeftGreenHt => SetState26SLeftGreenHT();
        case StateSLeftYellowHt => SetState27SLeftYellowHT();
        case StateAllRedHt3 => SetState28AllRedHT3();
        case StateWestGreenHt => SetState29WestGreenHT();
        case StateWestYellowHt => SetState30WestYellowHT();
        case StateAllRedHt4 => SetState31AllRedHT4();
        case StateEastThruGreenHt => SetState32EastThruGreenHT();
        case StateEastThruYellowHt => SetState33EastThruYellowHT();
        case StateAllRedHt5 => SetState34AllRedHT5();
        case StateELeftGreenHt => SetState35ELeftGreenHT();
        case StateELeftYellowHt => SetState36ELeftYellowHT();
        case StateNightOff => SetState37NightOff();
        case StateNightOn => SetState38NightOn();
        case StateEmergWarning => SetState39EmergWarning();
        case StateEmergHold => SetState40EmergHold();
        case StateEmergClearing => SetState41EmergClearing();
        case StateEmergReturn => SetState42EmergReturn();
        case _ => SetAllRed();
      }
    }
  }
}
