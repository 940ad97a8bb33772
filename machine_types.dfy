/*
 * Fixed-width unsigned integers of the MSP430 firmware.  Dafny's `int` is
 * unbounded, so each C width is a subset type and every wrap-around is
 * written out where it happens.
 */
module MachineTypes {
  /** `uint8_t`: capture cursors, LED numbers. */
  type uint8 = x: int | 0 <= x < 0x100

  /** `uint16_t`: Timer_A capture counts and durations. */
  type uint16 = x: int | 0 <= x < 0x1_0000

  /** `uint32_t`: state durations in milliseconds. */
  type uint32 = x: int | 0 <= x < 0x1_0000_0000
}
