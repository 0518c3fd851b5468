/**
 * The mask `clear` hands to `glClear`: the bitwise OR of the listed buffer
 * bits, folded from 0. The native call is not modelled.
 */
module Render {

  datatype BufferBit = ColorBufferBit | StencilBufferBit | DepthBufferBit {
    /** The variant's discriminant, its GL value. */
    function Code(): bv32 {
      match this
      case ColorBufferBit => 0x0000_4000
      case StencilBufferBit => 0x0000_0400
      case DepthBufferBit => 0x0000_0100
    }
  }

  /** Reference mask: the code of each buffer in `s`, and no other bit. */
  function MaskOf(s: set<BufferBit>): bv32 {
    (if ColorBufferBit in s then ColorBufferBit.Code() else 0) |
    (if StencilBufferBit in s then StencilBufferBit.Code() else 0) |
    (if DepthBufferBit in s then DepthBufferBit.Code() else 0)
  }

  function Elements(bits: seq<BufferBit>): set<BufferBit> {
    set b | b in bits
  }

  lemma MaskOfInsert(s: set<BufferBit>, b: BufferBit)
    ensures MaskOf(s + {b}) == MaskOf(s) | b.Code()
  {
    match b
    case ColorBufferBit =>
    case StencilBufferBit =>
    case DepthBufferBit =>
  }

  /** `bits.iter().fold(acc, |a, b| a | *b as u32)`: the accumulator ORed with
      the mask of the listed buffers. */
  function FoldOr(acc: bv32, bits: seq<BufferBit>): (r: bv32)
    ensures r == acc | MaskOf(Elements(bits))
    decreases bits
  {
    if bits == [] then
      assert Elements(bits) == {};
      acc
    else
      assert Elements(bits) == Elements(bits[1..]) + {bits[0]};
      MaskOfInsert(Elements(bits[1..]), bits[0]);
      FoldOr(acc | bits[0].Code(), bits[1..])
  }

  /** The mask of `clear`: exactly the reference mask of the listed buffers. */
  function ClearMask(bits: seq<BufferBit>): (r: bv32)
    ensures r == MaskOf(Elements(bits))
  {
    FoldOr(0, bits)
  }

  /** No buffers: no bits. */
  lemma ClearMaskEmpty()
    ensures ClearMask([]) == 0
  {
  }

  /** A buffer's bit is set in the mask exactly when the buffer is listed,
      and the mask has no bit outside the three buffer bits. */
  lemma ClearMaskBits(bits: seq<BufferBit>, b: BufferBit)
    ensures ClearMask(bits) & b.Code() != 0 <==> b in bits
    ensures ClearMask(bits) & !0x0000_4500 == 0
  {
    assert b in bits <==> b in Elements(bits);
  }

  /** The mask depends only on which buffers are listed, not on their order or
      repetition. */
  lemma ClearMaskSetOnly(bits: seq<BufferBit>, other: seq<BufferBit>)
    requires forall b :: b in bits <==> b in other
    ensures ClearMask(bits) == ClearMask(other)
  {
    assert forall b :: b in Elements(bits) <==> b in Elements(other);
    assert Elements(bits) == Elements(other);
  }

  lemma {:induction false} FoldOrAppend(acc: bv32, bits: seq<BufferBit>, more: seq<BufferBit>)
    ensures FoldOr(acc, bits + more) == FoldOr(FoldOr(acc, bits), more)
    decreases bits
  {
    if bits != [] {
      assert (bits + more)[1..] == bits[1..] + more;
      FoldOrAppend(acc | bits[0].Code(), bits[1..], more);
    } else {
      assert bits + more == more;
    }
  }

  /** Clearing a concatenation gives the OR of the two masks. */
  lemma ClearMaskAppend(bits: seq<BufferBit>, more: seq<BufferBit>)
    ensures ClearMask(bits + more) == ClearMask(bits) | ClearMask(more)
  {
    FoldOrAppend(0, bits, more);
  }
}
