# Traffic-signal controller firmware: IR receiver and LED state tables, in Dafny

This project models two parts of a microcontroller traffic-signal controller
and proves properties of them.

**IR receiver (IrReceiver.c).** Three infrared receivers are wired to the
three capture registers of Timer_A0.
- Every edge interrupt measures the 16-bit time since that channel's
  previous edge.
- A gap strictly between 8500 and 9500 ticks is an NEC leader. It restarts
  capture at slot 0 of the channel's 68-slot buffer.
- While a leader is detected, each gap is appended. The 67th gap marks the
  frame complete.
- `decodeNEC` turns the 32 space durations of a frame into a 32-bit value,
  LSB first. A space counts as a 1 when it is strictly longer than 1500.
- The `while(1)` body of `main` decodes every completed frame into `result`
  and clears that channel's flags.

The firmware copies one channel's globals and handler three times. Here
they are one `Channel` class (module `IrChannel`), instantiated three times
by `Receiver` (module `IrReceiver`). Each class method is proved against a
value-level function:
- `OnEdge` against `EdgeStep`;
- the interrupts against `CaptureA` and `CaptureBC`;
- the main-loop pass against `DispatchPass`;
- `DecodeNEC` against `Decoded`.

The properties are then proved as lemmas about those functions. The second
interrupt routine's `case 2` has no `break`, so a CCR1 interrupt also runs
the channel C handler. This is modelled as written.

**LED vector and state tables (traffic_states.c, traffic_states.h).** An
`LEDState` is four bytes used as one 32-bit vector, LED n being bit n % 8 of
byte n / 8.
- `setLED` sets or clears one bit and `getLED` reads one; both ignore
  numbers from 32 up.
- Each of the 43 `setState_*` functions clears the vector and lights a fixed
  set of LEDs.
- `executeState` dispatches on the state, with all-red as the default.
- `getStateDuration` is a table of hold times in milliseconds.

In the model, `LEDState` is a class over a 4-element `array<bv8>`. Each
state's pattern is the set `StateLeds(x)`, and `FromSet` turns a set of LEDs
into the four bytes. `FromSet` and `Lit` (the set of LEDs that are on) are
proved mutually inverse.

Modules and files:
- `machine_types.dfy`: `MachineTypes`, the C integer widths.
- `bits32.dfy`: `Bits32`, bit masks of a 32-bit word.
- `nec_decode.dfy`: `NecDecode`, `decodeNEC`.
- `ir_channel.dfy`: `IrChannel`, one capture channel.
- `ir_receiver.dfy`: `IrReceiver`, the three channels, both interrupt
  routines and the main-loop pass.
- `traffic_defs.dfy`: `TrafficDefs`, the constants and enumerations of
  traffic_states.h.
- `traffic_states.dfy`: `TrafficStates`, traffic_states.c.

## Model

| member | source | states |
|---|---|---|
| NecDecode.DecodeNEC | IrReceiver.c:37-55 | the loop over `index` = 2, 4, ..., 64, reading slot `index + 1` = 3, 5, ..., 65, and `bit` = 0..31 returns `Decoded(buffer[..])`; its invariant is that after `bit` rounds the value is the first `bit` decoded bits |
| NecDecode.DecodeBitsBit | IrReceiver.c:42-49 | after k rounds, bit b of the value is set iff b < k and the space of bit b exceeds 1500 |
| NecDecode.DecodedBit | IrReceiver.c:42-49 | bit b (0..31) of the decoded value is 1 iff `buffer[3 + 2b] > 1500` |
| NecDecode.DecodeRoundTrip | IrReceiver.c:42-49 | a buffer whose spaces are long exactly at the 1-bits of v decodes to v |
| NecDecode.DecodedIff | IrReceiver.c:42-49 | the buffer carries v (long spaces exactly at v's 1-bits) iff it decodes to v |
| NecDecode.DecodeSpacesOnly | IrReceiver.c:40-51 | buffers that agree on the 32 space slots decode alike; leader, marks and slots 66..67 are ignored |
| NecDecode.UniformFrames | IrReceiver.c:42-49 | all-600 spaces decode to 0 and all-1700 spaces decode to 0xFFFFFFFF |
| NecDecode.AlternatingFrame | IrReceiver.c:42-49 | spaces alternating short, long from data bit 0 on decode to 0xAAAAAAAA: the first space is the least significant bit |
| NecDecode.ThresholdIsStrict | IrReceiver.c:46 | a space of exactly 1500 is a 0 bit |
| IrChannel.Duration | IrReceiver.c:167 | the `uint16_t` difference: `lastCapture + duration` is `currentcapture` modulo 2^16 |
| IrChannel.DurationOfAdvance | IrReceiver.c:166-168 | an edge d ticks after the last one yields duration d, across a timer wrap or not |
| IrChannel.DurationAcrossWrap | IrReceiver.c:167 | last = 65530 and current = 10 give 16 |
| IrChannel.EdgeStep | IrReceiver.c:165-186 | the handler sets `lastCapture` to the new count, keeps the buffer at 68 slots and never clears `framecomplete` |
| IrChannel.EdgeStepKeepsInv | IrReceiver.c:176-185 | `captureindex < 67` is preserved, so the `< 68` guard always passes and slot 67 is never written |
| IrChannel.ResetInv | IrReceiver.c:16-20 | the zero-initialised globals satisfy the invariant |
| IrChannel.LeaderRestarts | IrReceiver.c:171-178 | a duration with 8500 < d < 9500 (both strict) sets `leaderDetected`, stores d in slot 0 and moves the cursor to 1, from any state, even mid-frame |
| IrChannel.IdleEdge | IrReceiver.c:171-185 | with no leader detected and a non-leader duration, only `lastCapture` changes |
| IrChannel.AppendSample | IrReceiver.c:176-184 | inside a frame a non-leader duration is written at the cursor; completion happens exactly when that was slot 66, and then resets the cursor to 0 and clears `leaderDetected` |
| IrChannel.FillOpen | IrReceiver.c:176-185 | fewer than the missing samples are appended in order, and the frame stays open |
| IrChannel.FillLast | IrReceiver.c:176-184 | the sample that lands in slot 66 completes the frame |
| IrChannel.FillComplete | IrReceiver.c:176-184 | exactly the missing samples fill the buffer up to slot 66 and complete the frame |
| IrChannel.CaptureFrame | IrReceiver.c:165-186 | a leader followed by 66 non-leader gaps leaves those 67 gaps in slots 0..66, with `framecomplete` set, the cursor at 0 and `leaderDetected` clear, whatever the prior state |
| IrChannel.TruncatedFrame | IrReceiver.c:176-185 | a frame cut off after fewer than 67 gaps is not flagged complete |
| IrChannel.CapturedFrameDecodes | IrReceiver.c:165-186 | the frame a channel captures decodes to the value its spaces carry |
| IrChannel.Channel.constructor | IrReceiver.c:16-20 | a fresh channel holds the reset state |
| IrChannel.Channel.OnEdge | IrReceiver.c:165-186 | the in-place update of one channel's globals is `EdgeStep` of the old state, and the cursor stays below 67 |
| IrReceiver.InterruptsKeepInv | IrReceiver.c:165-240 | both interrupt routines keep every channel's invariant |
| IrReceiver.CaptureATouchesAOnly | IrReceiver.c:165-186 | the CCR0 interrupt touches channel A only |
| IrReceiver.CaptureBCCases | IrReceiver.c:192-239 | TA0IV = 2 steps channel B and then channel C (fall-through); TA0IV = 4 steps channel C only; any other value changes nothing |
| IrReceiver.FallThroughRecordsZeroOnC | IrReceiver.c:193-238 | when channel C had no new edge, a CCR1 interrupt appends a 0-tick gap to the frame C is receiving |
| IrReceiver.DispatchPassEffect | IrReceiver.c:143-160 | after one pass no frame is pending; each completed channel has both flags cleared and nothing else changed; `result` is the decode of the last completed channel in the order A, B, C, and is unchanged when none had completed |
| IrReceiver.DispatchPassKeepsInv | IrReceiver.c:143-160 | the pass keeps every channel's invariant |
| IrReceiver.ReceiveOnA | IrReceiver.c:143-148 | after the edges of a whole frame on channel A, the next pass (with B and C idle) stores the frame's value in `result` |
| IrReceiver.LatePassAbortsCapture | IrReceiver.c:143-186 | if a new leader had already arrived when the pass clears `leaderDetected`, the later gaps of that frame are not stored |
| IrReceiver.Receiver.constructor | IrReceiver.c:16-35 | three fresh channels in the reset state and `result` = 0 |
| IrReceiver.Receiver.TimerA0Ccr0Isr | IrReceiver.c:165-186 | `TIMER0_A0_CCR0_ISR` performs `CaptureA` on the receiver state |
| IrReceiver.Receiver.TimerA0A1Isr | IrReceiver.c:189-240 | `TIMER0_A1_ISR` performs `CaptureBC`, including the fall-through from `case 2` into `case 4` |
| IrReceiver.Receiver.MainLoopPass | IrReceiver.c:143-160 | one pass of the `while(1)` body performs `DispatchPass` |
| TrafficDefs.NamedLedsAreDistinctAndAddressable | traffic_states.h:7-44 | the 31 named LEDs are numbers 0..30 in header order: distinct and all below 32 |
| TrafficDefs.StateNumbering | traffic_states.h:46-101 | the states are numbered contiguously 0..42 (daytime 0..17, high traffic 18..36, night 37..38, emergency 39..42) and `STATE_COUNT` is 43 |
| TrafficDefs.ModeValue | traffic_states.h:103-109 | each operating mode has a value in 0..3 |
| TrafficDefs.ModeValuesDistinct | traffic_states.h:103-109 | the four modes have four distinct values |
| TrafficDefs.TimingBounds | traffic_states.h:111-137 | every timing constant lies in [1000, 30000]; the minimum is `TIME_NIGHT_FLASH`, the maximum `TIME_N_PRIORITY` |
| TrafficStates.BitMaskIsShift | traffic_states.c:46-48 | the mask table is `1 << bitIndex` |
| TrafficStates.GetWithLED | traffic_states.c:39-57 | after `setLED(s, n, on)` with n < 32, `getLED(s, n) == on`; every other LED reads as before |
| TrafficStates.GetLED | traffic_states.c:52-57 | `getLED` reads only LEDs 0..31 as on; its round trip with `setLED` and the frame are `GetWithLED`, out-of-range reads are `OutOfRangeLED` |
| TrafficStates.WithLED | traffic_states.c:39-50 | `setLED` with n >= 32 leaves the bytes unchanged; lighting LED n of the vector for a set adds n to the set (`LightFromSet`) |
| TrafficStates.OutOfRangeLED | traffic_states.c:39-57 | for n >= 32, `setLED` changes nothing and `getLED` is false |
| TrafficStates.LitFromSet | traffic_states.c:39-57 | the vector built from a set of LEDs 0..31 lights exactly that set |
| TrafficStates.FromSetLit | traffic_states.h:140-142 | the four bytes are determined by which of the 32 LEDs are on |
| TrafficStates.LightFromSet | traffic_states.c:39-50 | `setLED(s, n, true)` on the vector of a set adds n to the set |
| TrafficStates.DarkIsAllOff | traffic_states.c:7-13 | after `initLEDState` or `clearAllLEDs`, `getLED` is false for every number |
| TrafficStates.StateLedsInRange | traffic_states.c:61-419 | no state pattern uses an LED above 27 |
| TrafficStates.ExecuteStateLights | traffic_states.c:425-476 | after `executeState(s, x)`, `getLED(s, n)` holds exactly for the n in `StateLeds(x)` |
| TrafficStates.SparesStayDark | traffic_states.c:61-419 | the spare LEDs 28..30 and bit 31 (the top nibble of `byte[3]`) are 0 after every `executeState` |
| TrafficStates.AllRedLights | traffic_states.c:15-25 | `setAllRed` lights exactly LEDs {0, 3, 7, 11, 15, 18, 22, 25} |
| TrafficStates.AllYellowLights | traffic_states.c:27-37 | `setAllYellow` lights exactly LEDs {1, 5, 9, 12, 16, 19, 23, 26} |
| TrafficStates.NightStatesLights | traffic_states.c:402-410 | state 37 turns every LED off; state 38 lights exactly {2, 15, 18, 25} |
| TrafficStates.ExecuteStateDelegates | traffic_states.c:425-476 | an unlisted state value lights what `setAllRed` lights; the emergency warning lights what `setAllYellow` lights |
| TrafficStates.GetStateDuration | traffic_states.c:478-528 | every hold time lies in [1000, 30000] ms |
| TrafficStates.NotableDurations | traffic_states.c:516-527 | E_LEFT_GREEN_HT returns `TIME_S_LEFT_GREEN_HT` (10000); E_LEFT_YELLOW_HT returns 3000 + 2000 = 5000; both night states return 1000; an unlisted value returns 2000 |
| TrafficStates.LEDState.constructor | traffic_states.h:140-142 | storage for exactly 4 bytes |
| TrafficStates.LEDState.InitLEDState | traffic_states.c:7-9 | all four bytes are 0 |
| TrafficStates.LEDState.ClearAllLEDs | traffic_states.c:11-13 | all four bytes are 0 |
| TrafficStates.LEDState.SetLED | traffic_states.c:39-50 | the new bytes are `WithLED` of the old ones: bit n % 8 of byte n / 8 is set or cleared, and nothing else changes; n >= 32 changes nothing |
| TrafficStates.LEDState.SetAllRed | traffic_states.c:15-25 | the vector lights exactly `AllRedLeds`, whatever it held before |
| TrafficStates.LEDState.SetAllYellow | traffic_states.c:27-37 | the vector lights exactly `AllYellowLeds`, whatever it held before |
| TrafficStates.LEDState.SetState0UnivGreen | traffic_states.c:61-71 | `setState_0_UnivGreen`: the vector lights exactly LEDs {2, 3, 7, 13, 15, 18, 22, 25}, whatever it held before (`byte[..] == FromSet(StateLeds(StateUnivGreen))`) |
| TrafficStates.LEDState.SetState1UnivYellow | traffic_states.c:73-83 | `setState_1_UnivYellow`: the vector lights exactly LEDs {1, 3, 7, 12, 15, 18, 22, 25}, whatever it held before (`byte[..] == FromSet(StateLeds(StateUnivYellow))`) |
| TrafficStates.LEDState.SetState2AllRed1 | traffic_states.c:85 | `setState_2_AllRed1`: delegates to `setAllRed`: the vector lights exactly `AllRedLeds` (`byte[..] == FromSet(StateLeds(StateAllRed1))`) |
| TrafficStates.LEDState.SetState3NLeftGreen | traffic_states.c:87-97 | `setState_3_NLeftGreen`: the vector lights exactly LEDs {0, 6, 7, 11, 15, 18, 22, 25}, whatever it held before (`byte[..] == FromSet(StateLeds(StateNLeftGreen))`) |
| TrafficStates.LEDState.SetState4NLeftYellow | traffic_states.c:99-109 | `setState_4_NLeftYellow`: the vector lights exactly LEDs {0, 5, 7, 11, 15, 18, 22, 25}, whatever it held before (`byte[..] == FromSet(StateLeds(StateNLeftYellow))`) |
| TrafficStates.LEDState.SetState5AllRed2 | traffic_states.c:111 | `setState_5_AllRed2`: delegates to `setAllRed`: the vector lights exactly `AllRedLeds` (`byte[..] == FromSet(StateLeds(StateAllRed2))`) |
| TrafficStates.LEDState.SetState6SLeftGreen | traffic_states.c:113-123 | `setState_6_SLeftGreen`: the vector lights exactly LEDs {0, 3, 10, 11, 15, 18, 22, 25}, whatever it held before (`byte[..] == FromSet(StateLeds(StateSLeftGreen))`) |
| TrafficStates.LEDState.SetState7SLeftYellow | traffic_states.c:125-135 | `setState_7_SLeftYellow`: the vector lights exactly LEDs {0, 3, 9, 11, 15, 18, 22, 25}, whatever it held before (`byte[..] == FromSet(StateLeds(StateSLeftYellow))`) |
| TrafficStates.LEDState.SetState8AllRed3 | traffic_states.c:137 | `setState_8_AllRed3`: delegates to `setAllRed`: the vector lights exactly `AllRedLeds` (`byte[..] == FromSet(StateLeds(StateAllRed3))`) |
| TrafficStates.LEDState.SetState9WestGreen | traffic_states.c:139-149 | `setState_9_WestGreen`: the vector lights exactly LEDs {0, 3, 7, 11, 17, 20, 22, 25}, whatever it held before (`byte[..] == FromSet(StateLeds(StateWestGreen))`) |
| TrafficStates.LEDState.SetState10WestYellow | traffic_states.c:151-161 | `setState_10_WestYellow`: the vector lights exactly LEDs {0, 3, 7, 11, 16, 19, 22, 25}, whatever it held before (`byte[..] == FromSet(StateLeds(StateWestYellow))`) |
| TrafficStates.LEDState.SetState11AllRed4 | traffic_states.c:163 | `setState_11_AllRed4`: delegates to `setAllRed`: the vector lights exactly `AllRedLeds` (`byte[..] == FromSet(StateLeds(StateAllRed4))`) |
| TrafficStates.LEDState.SetState12EastThruGreen | traffic_states.c:165-175 | `setState_12_EastThruGreen`: the vector lights exactly LEDs {0, 3, 7, 11, 15, 18, 22, 27}, whatever it held before (`byte[..] == FromSet(StateLeds(StateEastThruGreen))`) |
| TrafficStates.LEDState.SetState13EastThruYellow | traffic_states.c:177-187 | `setState_13_EastThruYellow`: the vector lights exactly LEDs {0, 3, 7, 11, 15, 18, 22, 26}, whatever it held before (`byte[..] == FromSet(StateLeds(StateEastThruYellow))`) |
| TrafficStates.LEDState.SetState14AllRed5 | traffic_states.c:189 | `setState_14_AllRed5`: delegates to `setAllRed`: the vector lights exactly `AllRedLeds` (`byte[..] == FromSet(StateLeds(StateAllRed5))`) |
| TrafficStates.LEDState.SetState15ELeftGreen | traffic_states.c:191-201 | `setState_15_ELeftGreen`: the vector lights exactly LEDs {0, 3, 7, 11, 15, 18, 24, 25}, whatever it held before (`byte[..] == FromSet(StateLeds(StateELeftGreen))`) |
| TrafficStates.LEDState.SetState16ELeftYellow | traffic_states.c:203-213 | `setState_16_ELeftYellow`: the vector lights exactly LEDs {0, 3, 7, 11, 15, 18, 23, 25}, whatever it held before (`byte[..] == FromSet(StateLeds(StateELeftYellow))`) |
| TrafficStates.LEDState.SetState17AllRed6 | traffic_states.c:215 | `setState_17_AllRed6`: delegates to `setAllRed`: the vector lights exactly `AllRedLeds` (`byte[..] == FromSet(StateLeds(StateAllRed6))`) |
| TrafficStates.LEDState.SetState18NorthPriority | traffic_states.c:221-231 | `setState_18_NorthPriority`: the vector lights exactly LEDs {2, 6, 7, 11, 15, 18, 22, 25}, whatever it held before (`byte[..] == FromSet(StateLeds(StateNorthPriority))`) |
| TrafficStates.LEDState.SetState19NArrowEnding | traffic_states.c:233-243 | `setState_19_NArrowEnding`: the vector lights exactly LEDs {2, 5, 7, 11, 15, 18, 22, 25}, whatever it held before (`byte[..] == FromSet(StateLeds(StateNArrowEnding))`) |
| TrafficStates.LEDState.SetState20NThruBonus | traffic_states.c:245-255 | `setState_20_NThruBonus`: the vector lights exactly LEDs {2, 3, 7, 11, 15, 18, 22, 25}, whatever it held before (`byte[..] == FromSet(StateLeds(StateNThruBonus))`) |
| TrafficStates.LEDState.SetState21NThruYellow | traffic_states.c:257-267 | `setState_21_NThruYellow`: the vector lights exactly LEDs {1, 3, 7, 11, 15, 18, 22, 25}, whatever it held before (`byte[..] == FromSet(StateLeds(StateNThruYellow))`) |
| TrafficStates.LEDState.SetState22AllRedHT1 | traffic_states.c:269 | `setState_22_AllRedHT1`: delegates to `setAllRed`: the vector lights exactly `AllRedLeds` (`byte[..] == FromSet(StateLeds(StateAllRedHt1))`) |
| TrafficStates.LEDState.SetState23SouthGreenHT | traffic_states.c:271-281 | `setState_23_SouthGreenHT`: the vector lights exactly LEDs {2, 3, 7, 13, 15, 18, 22, 25}, whatever it held before (`byte[..] == FromSet(StateLeds(StateSouthGreenHt))`) |
| TrafficStates.LEDState.SetState24SouthYellowHT | traffic_states.c:283-293 | `setState_24_SouthYellowHT`: the vector lights exactly LEDs {1, 3, 7, 12, 15, 18, 22, 25}, whatever it held before (`byte[..] == FromSet(StateLeds(StateSouthYellowHt))`) |
| TrafficStates.LEDState.SetState25AllRedHT2 | traffic_states.c:295 | `setState_25_AllRedHT2`: delegates to `setAllRed`: the vector lights exactly `AllRedLeds` (`byte[..] == FromSet(StateLeds(StateAllRedHt2))`) |
| TrafficStates.LEDState.SetState26SLeftGreenHT | traffic_states.c:297-307 | `setState_26_SLeftGreenHT`: the vector lights exactly LEDs {0, 3, 10, 11, 15, 18, 22, 25}, whatever it held before (`byte[..] == FromSet(StateLeds(StateSLeftGreenHt))`) |
| TrafficStates.LEDState.SetState27SLeftYellowHT | traffic_states.c:309-319 | `setState_27_SLeftYellowHT`: the vector lights exactly LEDs {0, 3, 9, 11, 15, 18, 22, 25}, whatever it held before (`byte[..] == FromSet(StateLeds(StateSLeftYellowHt))`) |
| TrafficStates.LEDState.SetState28AllRedHT3 | traffic_states.c:321 | `setState_28_AllRedHT3`: delegates to `setAllRed`: the vector lights exactly `AllRedLeds` (`byte[..] == FromSet(StateLeds(StateAllRedHt3))`) |
| TrafficStates.LEDState.SetState29WestGreenHT | traffic_states.c:323-333 | `setState_29_WestGreenHT`: the vector lights exactly LEDs {0, 3, 7, 11, 17, 20, 22, 25}, whatever it held before (`byte[..] == FromSet(StateLeds(StateWestGreenHt))`) |
| TrafficStates.LEDState.SetState30WestYellowHT | traffic_states.c:335-345 | `setState_30_WestYellowHT`: the vector lights exactly LEDs {0, 3, 7, 11, 16, 19, 22, 25}, whatever it held before (`byte[..] == FromSet(StateLeds(StateWestYellowHt))`) |
| TrafficStates.LEDState.SetState31AllRedHT4 | traffic_states.c:347 | `setState_31_AllRedHT4`: delegates to `setAllRed`: the vector lights exactly `AllRedLeds` (`byte[..] == FromSet(StateLeds(StateAllRedHt4))`) |
| TrafficStates.LEDState.SetState32EastThruGreenHT | traffic_states.c:349-359 | `setState_32_EastThruGreenHT`: the vector lights exactly LEDs {0, 3, 7, 11, 15, 18, 22, 27}, whatever it held before (`byte[..] == FromSet(StateLeds(StateEastThruGreenHt))`) |
| TrafficStates.LEDState.SetState33EastThruYellowHT | traffic_states.c:361-371 | `setState_33_EastThruYellowHT`: the vector lights exactly LEDs {0, 3, 7, 11, 15, 18, 22, 26}, whatever it held before (`byte[..] == FromSet(StateLeds(StateEastThruYellowHt))`) |
| TrafficStates.LEDState.SetState34AllRedHT5 | traffic_states.c:373 | `setState_34_AllRedHT5`: delegates to `setAllRed`: the vector lights exactly `AllRedLeds` (`byte[..] == FromSet(StateLeds(StateAllRedHt5))`) |
| TrafficStates.LEDState.SetState35ELeftGreenHT | traffic_states.c:375-385 | `setState_35_ELeftGreenHT`: the vector lights exactly LEDs {0, 3, 7, 11, 15, 18, 24, 25}, whatever it held before (`byte[..] == FromSet(StateLeds(StateELeftGreenHt))`) |
| TrafficStates.LEDState.SetState36ELeftYellowHT | traffic_states.c:387-397 | `setState_36_ELeftYellowHT`: the vector lights exactly LEDs {0, 3, 7, 11, 15, 18, 23, 25}, whatever it held before (`byte[..] == FromSet(StateLeds(StateELeftYellowHt))`) |
| TrafficStates.LEDState.SetState37NightOff | traffic_states.c:402 | `setState_37_NightOff`: clears the vector: every LED off (`byte[..] == FromSet(StateLeds(StateNightOff))`) |
| TrafficStates.LEDState.SetState38NightOn | traffic_states.c:404-410 | `setState_38_NightOn`: the vector lights exactly LEDs {2, 15, 18, 25}, whatever it held before (`byte[..] == FromSet(StateLeds(StateNightOn))`) |
| TrafficStates.LEDState.SetState39EmergWarning | traffic_states.c:416 | `setState_39_EmergWarning`: delegates to `setAllYellow`: the vector lights exactly `AllYellowLeds` (`byte[..] == FromSet(StateLeds(StateEmergWarning))`) |
| TrafficStates.LEDState.SetState40EmergHold | traffic_states.c:417 | `setState_40_EmergHold`: delegates to `setAllRed`: the vector lights exactly `AllRedLeds` (`byte[..] == FromSet(StateLeds(StateEmergHold))`) |
| TrafficStates.LEDState.SetState41EmergClearing | traffic_states.c:418 | `setState_41_EmergClearing`: delegates to `setAllRed`: the vector lights exactly `AllRedLeds` (`byte[..] == FromSet(StateLeds(StateEmergClearing))`) |
| TrafficStates.LEDState.SetState42EmergReturn | traffic_states.c:419 | `setState_42_EmergReturn`: delegates to `setAllRed`: the vector lights exactly `AllRedLeds` (`byte[..] == FromSet(StateLeds(StateEmergReturn))`) |
| TrafficStates.LEDState.ExecuteState | traffic_states.c:425-476 | the final bytes are `FromSet(StateLeds(x))`, a function of x alone. The prior contents do not matter, and a second call with the same x leaves the bytes as they are. Any value outside 0..42 gives the all-red vector |

## Left out

- Hardware set-up (IrReceiver.c:58-141) is left out: the capture-mode and continuous-mode timer initialisation, the pin set-up, `WDT_A_hold`, `PMM_unlockLPM5`, enabling the interrupts. It only writes registers.
- Register reads become parameters: `Timer_A_getCaptureCompareCount` and `TA0IV` are read from hardware, so the methods take the capture counts and the vector value as arguments.
- `__even_in_range(TA0IV, 2)` is left out. It promises the compiler an even value no greater than 2, which value 4 breaks. The model gives the `switch` its plain C meaning and does not model what the compiler may generate for values outside that promise.
- Each interrupt and each main-loop pass is one atomic step. Preemption of the main loop part-way through a statement, `volatile` semantics and memory ordering are not modelled. The hazard of the pass clearing `leaderDetected` during a new capture is shown as a sequence of steps (`LatePassAbortsCapture`).
- Only one pass of the `while(1)` loop is modelled, not the endless loop itself.
- NecDecode.DecodeNEC: the global `int bit` that the C loop uses as its counter is not modelled. The loop counter is local, so the value 32 the C code leaves in that global is not part of the model.
- The `uint8_t` flags `framecomplete*` and `leaderDetected*` are `bool`, because the code only ever stores 0 and 1 in them.
- `getNextState` is left out: traffic_states.h:204-206 declares it, but none of the files defines it.
- Shifting the LED bytes out to the shift-register chips is not part of these files.
- The NEC address/inverse checksum, a capture timeout and a fix for the `case 2` fall-through are left out, because the code has none of them.
