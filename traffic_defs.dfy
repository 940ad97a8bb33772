/*
 * The definitions of traffic_states.h: LED numbers, the state and mode
 * enumerations and the state timings.  The `LEDState` struct is modelled
 * in module TrafficStates.
 */
module TrafficDefs {
  import opened MachineTypes

  /* LED numbers: bit positions in the 32-bit LED vector. */
  const NsMainRed: uint8 := 0
  const NsMainYellow: uint8 := 1
  const NsMainGreen: uint8 := 2
  const NLeftRed: uint8 := 3
  const NLeftYellowBlink: uint8 := 4
  const NLeftYellowSteady: uint8 := 5
  const NLeftGreenArrow: uint8 := 6
  const SLeftRed: uint8 := 7
  const SLeftYellowBlink: uint8 := 8
  const SLeftYellowSteady: uint8 := 9
  const SLeftGreenArrow: uint8 := 10
  const SRightRed: uint8 := 11
  const SRightYellow: uint8 := 12
  const SRightGreenBall: uint8 := 13
  const SRightGreenArrow: uint8 := 14
  const WThruRed: uint8 := 15
  const WThruYellow: uint8 := 16
  const WThruGreen: uint8 := 17
  const WRightRed: uint8 := 18
  const WRightYellow: uint8 := 19
  const WRightGreenBall: uint8 := 20
  const WRightGreenArrow: uint8 := 21
  const ELeftRed: uint8 := 22
  const ELeftYellow: uint8 := 23
  const ELeftGreenArrow: uint8 := 24
  const EThruRed: uint8 := 25
  const EThruYellow: uint8 := 26
  const EThruGreen: uint8 := 27
  const SpareLed1: uint8 := 28
  const SpareLed2: uint8 := 29
  const SpareLed3: uint8 := 30

  /** Every named LED, in header order. */
  const NamedLeds: seq<uint8> := [
    NsMainRed, NsMainYellow, NsMainGreen, NLeftRed, NLeftYellowBlink, NLeftYellowSteady,
    NLeftGreenArrow, SLeftRed, SLeftYellowBlink, SLeftYellowSteady, SLeftGreenArrow, SRightRed,
    SRightYellow, SRightGreenBall, SRightGreenArrow, WThruRed, WThruYellow, WThruGreen,
    WRightRed, WRightYellow, WRightGreenBall, WRightGreenArrow, ELeftRed, ELeftYellow,
    ELeftGreenArrow, EThruRed, EThruYellow, EThruGreen, SpareLed1, SpareLed2,
    SpareLed3
  ]

  /** The named LEDs are LEDs 0..30 in order: all distinct, all addressable, bit 31 unused. */
  lemma NamedLedsAreDistinctAndAddressable()
    ensures |NamedLeds| == 31
    ensures forall i :: 0 <= i < |NamedLeds| ==> NamedLeds[i] == i
    ensures forall i, j :: 0 <= i < j < |NamedLeds| ==> NamedLeds[i] != NamedLeds[j]
    ensures forall i :: 0 <= i < |NamedLeds| ==> NamedLeds[i] < 32
  {
  }

  /**
   * `TrafficState`.  A C enum object can hold any `int`, and `executeState`
   * and `getStateDuration` have a `default` branch for the values outside
   * the enumeration, so the type is `int`.
   */
  type TrafficState = int

  const StateUnivGreen: TrafficState := 0
  const StateUnivYellow: TrafficState := 1
  const StateAllRed1: TrafficState := 2
  const StateNLeftGreen: TrafficState := 3
  const StateNLeftYellow: TrafficState := 4
  const StateAllRed2: TrafficState := 5
  const StateSLeftGreen: TrafficState := 6
  const StateSLeftYellow: TrafficState := 7
  const StateAllRed3: TrafficState := 8
  const StateWestGreen: TrafficState := 9
  const StateWestYellow: TrafficState := 10
  const StateAllRed4: TrafficState := 11
  const StateEastThruGreen: TrafficState := 12
  const StateEastThruYellow: TrafficState := 13
  const StateAllRed5: TrafficState := 14
  const StateELeftGreen: TrafficState := 15
  const StateELeftYellow: TrafficState := 16
  const StateAllRed6: TrafficState := 17
  const StateNorthPriority: TrafficState := 18
  const StateNArrowEnding: TrafficState := 19
  const StateNThruBonus: TrafficState := 20
  const StateNThruYellow: TrafficState := 21
  const StateAllRedHt1: TrafficState := 22
  const StateSouthGreenHt: TrafficState := 23
  const StateSouthYellowHt: TrafficState := 24
  const StateAllRedHt2: TrafficState := 25
  const StateSLeftGreenHt: TrafficState := 26
  const StateSLeftYellowHt: TrafficState := 27
  const StateAllRedHt3: TrafficState := 28
  const StateWestGreenHt: TrafficState := 29
  const StateWestYellowHt: TrafficState := 30
  const StateAllRedHt4: TrafficState := 31
  const StateEastThruGreenHt: TrafficState := 32
  const StateEastThruYellowHt: TrafficState := 33
  const StateAllRedHt5: TrafficState := 34
  const StateELeftGreenHt: TrafficState := 35
  const StateELeftYellowHt: TrafficState := 36
  const StateNightOff: TrafficState := 37
  const StateNightOn: TrafficState := 38
  const StateEmergWarning: TrafficState := 39
  const StateEmergHold: TrafficState := 40
  const StateEmergClearing: TrafficState := 41
  const StateEmergReturn: TrafficState := 42
  const StateCount: TrafficState := 43

  /** The states in enumeration order. */
  const AllStates: seq<TrafficState> := [
    StateUnivGreen, StateUnivYellow, StateAllRed1, StateNLeftGreen,
    StateNLeftYellow, StateAllRed2, StateSLeftGreen, StateSLeftYellow,
    StateAllRed3, StateWestGreen, StateWestYellow, StateAllRed4,
    StateEastThruGreen, StateEastThruYellow, StateAllRed5, StateELeftGreen,
    StateELeftYellow, StateAllRed6, StateNorthPriority, StateNArrowEnding,
    StateNThruBonus, StateNThruYellow, StateAllRedHt1, StateSouthGreenHt,
    StateSouthYellowHt, StateAllRedHt2, StateSLeftGreenHt, StateSLeftYellowHt,
    StateAllRedHt3, StateWestGreenHt, StateWestYellowHt, StateAllRedHt4,
    StateEastThruGreenHt, StateEastThruYellowHt, StateAllRedHt5, StateELeftGreenHt,
    StateELeftYellowHt, StateNightOff, StateNightOn, StateEmergWarning,
    StateEmergHold, StateEmergClearing, StateEmergReturn
  ]

  /**
   * The numbering is contiguous from 0 to `StateCount - 1`: daytime states
   * 0..17, high-traffic 18..36, night 37..38, emergency 39..42.
   */
  lemma StateNumbering()
    ensures |AllStates| == StateCount == 43
    ensures forall i :: 0 <= i < |AllStates| ==> AllStates[i] == i
    ensures StateUnivGreen == 0 && StateAllRed6 == 17
    ensures StateNorthPriority == 18 && StateELeftYellowHt == 36
    ensures StateNightOff == 37 && StateNightOn == 38
    ensures StateEmergWarning == 39 && StateEmergReturn == 42
  {
  }

  /** `OperatingMode`. */
  datatype OperatingMode = ModeDaytime | ModeHighTraffic | ModeNight | ModeEmergency

  /** The enumerator values of `OperatingMode`. */
  function ModeValue(m: OperatingMode): (v: int)
    ensures 0 <= v < 4
  {
    match m
    case ModeDaytime => 0
    case ModeHighTraffic => 1
    case ModeNight => 2
    case ModeEmergency => 3
  }

  /** The four modes have the four distinct values 0..3. */
  lemma ModeValuesDistinct(m: OperatingMode, m': OperatingMode)
    ensures ModeValue(m) == ModeValue(m') <==> m == m'
  {
  }

  /* State timings in milliseconds. */
  const TimeUnivGreen: uint32 := 20000
  const TimeNLeftGreen: uint32 := 12000
  const TimeSLeftGreen: uint32 := 12000
  const TimeWestGreen: uint32 := 15000
  const TimeEastThruGreen: uint32 := 15000
  const TimeELeftGreen: uint32 := 8000
  const TimeYellow: uint32 := 4000
  const TimeYellowArrow: uint32 := 3000
  const TimeAllRed: uint32 := 2000
  const TimeNPriority: uint32 := 30000
  const TimeNArrowEnd: uint32 := 2000
  const TimeNThruBonus: uint32 := 8000
  const TimeNThruYellowHt: uint32 := 4000
  const TimeSouthGreenHt: uint32 := 25000
  const TimeSLeftGreenHt: uint32 := 10000
  const TimeWestGreenHt: uint32 := 8000
  const TimeEastThruHt: uint32 := 8000
  const TimeNightFlash: uint32 := 1000
  const TimeEmergWarning: uint32 := 2000
  const TimeEmergHoldMin: uint32 := 4000
  const TimeEmergClearing: uint32 := 2000
  const TimeEmergReturn: uint32 := 1500

  const Timings: seq<uint32> := [
    TimeUnivGreen, TimeNLeftGreen, TimeSLeftGreen, TimeWestGreen,
    TimeEastThruGreen, TimeELeftGreen, TimeYellow, TimeYellowArrow,
    TimeAllRed, TimeNPriority, TimeNArrowEnd, TimeNThruBonus,
    TimeNThruYellowHt, TimeSouthGreenHt, TimeSLeftGreenHt, TimeWestGreenHt,
    TimeEastThruHt, TimeNightFlash, TimeEmergWarning, TimeEmergHoldMin,
    TimeEmergClearing, TimeEmergReturn
  ]

  /** Every timing is a positive number of milliseconds between the night flash and the northbound priority phase. */
  lemma TimingBounds()
    ensures forall i :: 0 <= i < |Timings| ==> TimeNightFlash <= Timings[i] <= TimeNPriority
    ensures TimeNightFlash == 1000 && TimeNPriority == 30000
    ensures TimeNightFlash in Timings && TimeNPriority in Timings
  {
  }
}
