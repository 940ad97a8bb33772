/*
 * `decodeNEC` of IrReceiver.c: turns a captured NEC frame into its 32-bit
 * payload.  A frame in the capture buffer is the leader mark and leader
 * space (slots 0 and 1) followed by 32 mark/space pairs; the space of data
 * bit b sits in slot 3 + 2b.  NEC encodes a logical 1 as a long space
 * (about 1690 us) and a logical 0 as a short one (about 562 us); the buffer
 * holds these as timer ticks, and the decoder separates them with a strict
 * `> 1500` test on the tick count and fills the result LSB first.
 */
module NecDecode {
  import opened MachineTypes
  import opened Bits32

  /** A space strictly longer than this is a logical 1. */
  const SpaceThreshold: uint16 := 1500

  /** Number of leading slots read by the decoder: slot 65 is the last space. */
  const DecodedSlots := 66

  /** The captured space duration of data bit `b`. */
  function Space(buffer: seq<uint16>, b: bv32): (d: uint16)
    requires |buffer| >= DecodedSlots && b < 32
  {
    buffer[3 + 2 * b as int]
  }

  /** The value after the first `k` iterations of the decoding loop. */
  function DecodeBits(buffer: seq<uint16>, k: bv32): (v: bv32)
    requires |buffer| >= DecodedSlots && k <= 32
    decreases k as int
  {
    if k == 0 then 0
    else if Space(buffer, k - 1) > SpaceThreshold then DecodeBits(buffer, k - 1) | Mask(k - 1)
    else DecodeBits(buffer, k - 1)
  }

  /** The payload `decodeNEC` returns for a buffer. */
  function Decoded(buffer: seq<uint16>): (v: bv32)
    requires |buffer| >= DecodedSlots
  {
    DecodeBits(buffer, 32)
  }

  /**
   * After `k` iterations, bit b is set exactly when b was already visited
   * and its space exceeded the threshold.
   */
  lemma {:induction false} DecodeBitsBit(buffer: seq<uint16>, k: bv32, b: bv32)
    requires |buffer| >= DecodedSlots && k <= 32 && b < 32
    ensures Bit(DecodeBits(buffer, k), b) <==> b < k && Space(buffer, b) > SpaceThreshold
    decreases k as int
  {
    if k > 0 {
      DecodeBitsBit(buffer, k - 1, b);
    }
  }

  /** Bit b of the payload is 1 iff the space of bit b is strictly longer than 1500. */
  lemma DecodedBit(buffer: seq<uint16>, b: bv32)
    requires |buffer| >= DecodedSlots && b < 32
    ensures Bit(Decoded(buffer), b) <==> Space(buffer, b) > SpaceThreshold
  {
    DecodeBitsBit(buffer, 32, b);
  }

  /** The buffer carries `v`: long spaces exactly at the 1-bits of `v`. */
  ghost predicate Encodes(buffer: seq<uint16>, v: bv32)
    requires |buffer| >= DecodedSlots
  {
    forall b: bv32 {:trigger Space(buffer, b)} :: b < 32 ==> (Space(buffer, b) > SpaceThreshold <==> Bit(v, b))
  }

  /** A buffer that carries `v` decodes to exactly `v`. */
  lemma DecodeRoundTrip(buffer: seq<uint16>, v: bv32)
    requires |buffer| >= DecodedSlots && Encodes(buffer, v)
    ensures Decoded(buffer) == v
  {
    var d := Decoded(buffer);
    DecodedBit(buffer, 0); DecodedBit(buffer, 1); DecodedBit(buffer, 2); DecodedBit(buffer, 3);
    DecodedBit(buffer, 4); DecodedBit(buffer, 5); DecodedBit(buffer, 6); DecodedBit(buffer, 7);
    DecodedBit(buffer, 8); DecodedBit(buffer, 9); DecodedBit(buffer, 10); DecodedBit(buffer, 11);
    DecodedBit(buffer, 12); DecodedBit(buffer, 13); DecodedBit(buffer, 14); DecodedBit(buffer, 15);
    DecodedBit(buffer, 16); DecodedBit(buffer, 17); DecodedBit(buffer, 18); DecodedBit(buffer, 19);
    DecodedBit(buffer, 20); DecodedBit(buffer, 21); DecodedBit(buffer, 22); DecodedBit(buffer, 23);
    DecodedBit(buffer, 24); DecodedBit(buffer, 25); DecodedBit(buffer, 26); DecodedBit(buffer, 27);
    DecodedBit(buffer, 28); DecodedBit(buffer, 29); DecodedBit(buffer, 30); DecodedBit(buffer, 31);
    Extensionality(d, v);
  }

  /** The payload is the one value the buffer carries. */
  lemma DecodedIff(buffer: seq<uint16>, v: bv32)
    requires |buffer| >= DecodedSlots
    ensures Encodes(buffer, v) <==> Decoded(buffer) == v
  {
    if Encodes(buffer, v) {
      DecodeRoundTrip(buffer, v);
    }
    if Decoded(buffer) == v {
      forall b: bv32 | b < 32
        ensures Space(buffer, b) > SpaceThreshold <==> Bit(v, b)
      {
        DecodedBit(buffer, b);
      }
    }
  }

  /**
   * Only the 32 spaces matter: buffers that agree on slots 3, 5, ..., 65
   * decode alike, whatever their leader, marks and trailing slots hold.
   */
  lemma {:induction false} DecodeSpacesOnly(buffer: seq<uint16>, other: seq<uint16>, k: bv32)
    requires |buffer| >= DecodedSlots && |other| >= DecodedSlots && k <= 32
    requires forall b: bv32 {:trigger Space(buffer, b)} :: b < k ==> Space(buffer, b) == Space(other, b)
    ensures DecodeBits(buffer, k) == DecodeBits(other, k)
    decreases k as int
  {
    if k > 0 {
      assert Space(buffer, k - 1) == Space(other, k - 1);
      DecodeSpacesOnly(buffer, other, k - 1);
    }
  }

  /** All-short spaces (600 ticks) decode to 0; all-long spaces (1700 ticks) decode to 0xFFFF_FFFF. */
  lemma UniformFrames()
    ensures Decoded(seq(68, _ => 600)) == 0
    ensures Decoded(seq(68, _ => 1700)) == 0xFFFF_FFFF
  {
    var short: seq<uint16> := seq(68, _ => 600);
    var long: seq<uint16> := seq(68, _ => 1700);
    assert Encodes(short, 0);
    DecodeRoundTrip(short, 0);
    assert Encodes(long, 0xFFFF_FFFF);
    DecodeRoundTrip(long, 0xFFFF_FFFF);
  }

  /**
   * Short and long spaces alternating from bit 0 on (slot 3 short, slot 5
   * long, ...) decode to 0xAAAAAAAA: the first space is the least
   * significant bit.
   */
  lemma AlternatingFrame()
    ensures Decoded(seq(68, i => if i % 4 == 1 then 1700 else 600)) == 0xAAAA_AAAA
  {
    var buffer: seq<uint16> := seq(68, i => if i % 4 == 1 then 1700 else 600);
    assert Encodes(buffer, 0xAAAA_AAAA);
    DecodeRoundTrip(buffer, 0xAAAA_AAAA);
  }

  /** A space of exactly 1500 ticks is a 0: the threshold is strict. */
  lemma ThresholdIsStrict(buffer: seq<uint16>, b: bv32)
    requires |buffer| >= DecodedSlots && b < 32 && Space(buffer, b) == 1500
    ensures !Bit(Decoded(buffer), b)
  {
    DecodedBit(buffer, b);
  }

  /**
   * `decodeNEC`: the loop walks `index` over 2, 4, ..., 64, reading slot
   * `index + 1` = 3, 5, ..., 65, while `bit` runs over 0..31, or-ing in
   * a 1 for every long space.
   */
  method DecodeNEC(buffer: array<uint16>) returns (value: bv32)
    requires buffer.Length >= DecodedSlots
    ensures value == Decoded(buffer[..])
  {
    value := 0;
    var index := 2;
    var bit: bv32 := 0;
    while bit < 32
      invariant bit <= 32
      invariant index == 2 + 2 * bit as int
      invariant value == DecodeBits(buffer[..], bit)
      decreases 32 - bit as int
    {
      var space := buffer[index + 1];
      if space > SpaceThreshold {
        value := value | Mask(bit);
      }
      index := index + 2;
      bit := bit + 1;
    }
  }
}
