/** One-bit-per-pipe masks, held as their six bits, least significant first. */
module Bits {
  type Mask = b: seq<bool> | |b| == 6 witness [false, false, false, false, false, false]

  const ALL_PIPES: Mask := [true, true, true, true, true, true]
  const NO_PIPES: Mask := [false, false, false, false, false, false]

  /** The six pipe bits of an eight-bit register. */
  function PipeBits(v: bv8): Mask {
    [v & 0x01 != 0, v & 0x02 != 0, v & 0x04 != 0, v & 0x08 != 0, v & 0x10 != 0, v & 0x20 != 0]
  }

  /** 1 << i */
  function Bit(i: nat): bv8
    requires i <= 5
  {
    match i
    case 0 => 0x01
    case 1 => 0x02
    case 2 => 0x04
    case 3 => 0x08
    case 4 => 0x10
    case _ => 0x20
  }

  /** CHK_BIT, SET_BIT and CLR_BIT on the register are index, set and clear on its mask. */
  lemma BitMacros(v: bv8, i: nat, j: nat)
    requires i <= 5 && j <= 5
    ensures v & Bit(i) != 0 <==> PipeBits(v)[i]
    ensures PipeBits(v | Bit(i))[j] == PipeBits(v)[i := true][j]
    ensures PipeBits(v & !Bit(i))[j] == PipeBits(v)[i := false][j]
  {
    hide PipeBits, Bit;
    PipeBit(v, i);
    SetOneBit(v, i, j);
    ClearOneBit(v, i, j);
  }

  lemma SetOneBit(v: bv8, i: nat, j: nat)
    requires i <= 5 && j <= 5
    ensures PipeBits(v | Bit(i))[j] == PipeBits(v)[i := true][j]
  {
    hide PipeBits, Bit;
    PipeBit(v | Bit(i), j);
    PipeBit(v, j);
    DistinctBits(v, i, j);
  }

  lemma ClearOneBit(v: bv8, i: nat, j: nat)
    requires i <= 5 && j <= 5
    ensures PipeBits(v & !Bit(i))[j] == PipeBits(v)[i := false][j]
  {
    hide PipeBits, Bit;
    PipeBit(v & !Bit(i), j);
    PipeBit(v, j);
    DistinctBits(v, i, j);
  }

  lemma PipeBit(v: bv8, i: nat)
    requires i <= 5
    ensures PipeBits(v)[i] == (v & Bit(i) != 0)
  {
  }

  lemma DistinctBits(v: bv8, i: nat, j: nat)
    requires i <= 5 && j <= 5
    ensures ((v | Bit(i)) & Bit(j) != 0) <==> i == j || v & Bit(j) != 0
    ensures ((v & !Bit(i)) & Bit(j) != 0) <==> i != j && v & Bit(j) != 0
  {
  }

  /** `mask & 0x3e`: some data pipe is taken. */
  predicate AnyRaw(m: Mask) {
    m[1] || m[2] || m[3] || m[4] || m[5]
  }

  /** `(mask & 0x3e) == 0x3e`: every data pipe is taken. */
  predicate AllRaw(m: Mask) {
    m[1] && m[2] && m[3] && m[4] && m[5]
  }

  lemma RawMaskTests(v: bv8)
    ensures v & 0x3e != 0 <==> AnyRaw(PipeBits(v))
    ensures v & 0x3e == 0x3e <==> AllRaw(PipeBits(v))
  {
    var m := PipeBits(v);
    assert m[1] == (v & 0x02 != 0) && m[2] == (v & 0x04 != 0) && m[3] == (v & 0x08 != 0);
  }
}
