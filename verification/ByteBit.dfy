/** Byte and bit addresses: a machine-width byte number and a bit offset in one unsigned char, in one of three forms. */
module ByteBit {

  const ULONG: nat := 0x1_0000_0000_0000_0000
  const UCHAR: nat := 0x100

  /** An address with its alignment flags; no flag is the raw form. */
  datatype Addr = Addr(byte: nat, bit: nat, byteAligned: bool, wordAligned: bool) {
    /** The position in bits from address zero. */
    function Abs(): nat {
      8 * byte + bit
    }

    /** The fields fit, and a flag tells the truth: in byte form the offset is within a byte, in word form the byte
      * number is a multiple of four and the offset is within a word. */
    predicate Sound() {
      && byte < ULONG && bit < UCHAR
      && (byteAligned ==> bit < 8)
      && (wordAligned ==> byte % 4 == 0 && bit < 32)
    }

    /** The byte number cannot hold the whole bytes of the offset as well. */
    predicate Wraps() {
      byte + bit / 8 >= ULONG
    }
  }

  function Flagged(byte: nat, bit: nat): Addr {
    Addr(byte, bit, true, byte % 4 == 0)
  }

  /** byte_normalise_bb_katcl: the new value and whether it succeeded; a wrap is noticed after the fields have
    * changed. */
  function ByteNormalised(a: Addr): (Addr, bool) {
    if a.byteAligned then (a, true)
    else
      var byte, bit := (a.byte + a.bit / 8) % ULONG, a.bit % 8;
      if byte < a.byte then (a.(byte := byte, bit := bit), false) else (Flagged(byte, bit), true)
  }

  /** word_normalise_bb_katcl: a wrap leaves the address alone. */
  function WordNormalised(a: Addr): (Addr, bool) {
    if a.wordAligned then (a, true)
    else
      var (t, ok) := ByteNormalised(a);
      if !ok then (a, false)
      else
        var byte, bit := t.byte / 4 * 4, t.byte % 4 * 8 + t.bit;
        (Addr(byte, bit, bit < 8, true), true)
  }

  lemma WrapSeen(byte: nat, more: nat)
    requires byte < ULONG && more < ULONG
    ensures (byte + more) % ULONG < byte <==> byte + more >= ULONG
    ensures byte + more < ULONG ==> (byte + more) % ULONG == byte + more
  {
    if byte + more >= ULONG {
      assert (byte + more) % ULONG == byte + more - ULONG;
    }
  }

  /** Byte normalisation succeeds exactly when the byte number does not wrap, keeps the position and gives byte form. */
  lemma ByteNormalisedMeans(a: Addr)
    requires a.Sound()
    ensures var (t, ok) := ByteNormalised(a);
      (ok <==> a.byteAligned || !a.Wraps()) && (ok ==> t.Sound() && t.byteAligned && t.Abs() == a.Abs())
  {
    WrapSeen(a.byte, a.bit / 8);
  }

  /** Word normalisation likewise. */
  lemma WordNormalisedMeans(a: Addr)
    requires a.Sound()
    ensures var (t, ok) := WordNormalised(a);
      (ok <==> a.wordAligned || a.byteAligned || !a.Wraps()) && t.Abs() == a.Abs()
      && (if ok then t.Sound() && t.wordAligned else t == a)
  {
    ByteNormalisedMeans(a);
    var t := ByteNormalised(a).0;
    assert t.byte == t.byte / 4 * 4 + t.byte % 4;
  }

  /** exceeds_bb_katcl: at most one normalisation of each side, then a comparison of like forms. */
  function Exceeds(a: Addr, limit: Addr): int
    decreases (if a.byteAligned then 0 else 1) + (if limit.byteAligned then 0 else 1)
  {
    if (a.byteAligned && limit.byteAligned) || (a.wordAligned && limit.wordAligned) then
      if a.byte < limit.byte then 0
      else if a.byte > limit.byte then 1
      else if a.bit > limit.bit then 1
      else 0
    else if a.byteAligned then
      var (t, ok) := ByteNormalised(limit);
      if !ok then -1 else Exceeds(a, t)
    else
      var (t, ok) := ByteNormalised(a);
      if !ok then -1 else Exceeds(t, limit)
  }

  /** The comparison fails exactly if a side that is not in byte form wraps; when it answers, the answer is whether the
    * first position is strictly greater, whatever the forms. */
  lemma {:induction false} ExceedsDecides(a: Addr, limit: Addr)
    requires a.Sound() && limit.Sound()
    ensures Exceeds(a, limit) == -1 <==> (!a.byteAligned && a.Wraps()) || (!limit.byteAligned && limit.Wraps())
    ensures Exceeds(a, limit) != -1 ==> Exceeds(a, limit) == if a.Abs() > limit.Abs() then 1 else 0
    decreases (if a.byteAligned then 0 else 1) + (if limit.byteAligned then 0 else 1)
  {
    if (a.byteAligned && limit.byteAligned) || (a.wordAligned && limit.wordAligned) {
      if a.wordAligned && limit.wordAligned && a.byte != limit.byte {
        assert a.byte / 4 * 4 == a.byte && limit.byte / 4 * 4 == limit.byte;
      }
    } else if a.byteAligned {
      ByteNormalisedMeans(limit);
      if ByteNormalised(limit).1 {
        ExceedsDecides(a, ByteNormalised(limit).0);
      }
    } else {
      ByteNormalisedMeans(a);
      if ByteNormalised(a).1 {
        ExceedsDecides(ByteNormalised(a).0, limit);
      }
    }
  }

  /** struct katcl_byte_bit */
  class BB {
    var byte: nat
    var bit: nat
    var byteAligned: bool
    var wordAligned: bool

    constructor ()
    {
      byte, bit, byteAligned, wordAligned := 0, 0, false, false;
    }

    function View(): Addr
      reads this
    {
      Addr(byte, bit, byteAligned, wordAligned)
    }

    /** make_bb_katcl from two unsigned longs */
    method Make(newByte: nat, newBit: nat) returns (result: int)
      requires newByte < ULONG && newBit < ULONG
      modifies this
      ensures result == if newByte + newBit / 8 >= ULONG then -1 else 0
      ensures if result == 0 then View().Sound() && byteAligned && View().Abs() == 8 * newByte + newBit
        else View() == old(View())
    {
      var delta := newBit / 8;
      WrapSeen(newByte, delta);
      if (newByte + delta) % ULONG < newByte {
        return -1;
      }
      byte, bit := (newByte + delta) % ULONG, newBit - delta * 8;
      byteAligned, wordAligned := true, byte % 4 == 0;
      return 0;
    }

    method ByteNormalise() returns (result: int)
      modifies this
      ensures (View(), result == 0) == ByteNormalised(old(View())) && result in {0, -1}
    {
      if byteAligned {
        return 0;
      }
      var before := byte;
      byte, bit := (byte + bit / 8) % ULONG, bit % 8;
      if byte < before {
        return -1;
      }
      byteAligned, wordAligned := true, byte % 4 == 0;
      return 0;
    }

    method WordNormalise() returns (result: int)
      modifies this
      ensures (View(), result == 0) == WordNormalised(old(View())) && result in {0, -1}
    {
      if wordAligned {
        return 0;
      }
      var tmp := new BB();
      tmp.byte, tmp.bit, tmp.byteAligned, tmp.wordAligned := byte, bit, byteAligned, wordAligned;
      if !byteAligned {
        result := tmp.ByteNormalise();
        if result < 0 {
          return -1;
        }
      }
      byte, bit := tmp.byte / 4 * 4, tmp.byte % 4 * 8 + tmp.bit;
      byteAligned, wordAligned := bit < 8, true;
      return 0;
    }

    /** add_bb_katcl into this address, which may be one of the summands: the exact sum whenever it returns 0, which it
      * does unless one of the fields overflows, and in word form unless the sum wraps. */
    method Add(alpha: BB, beta: BB) returns (result: int)
      requires alpha.View().Sound() && beta.View().Sound()
      modifies this
      ensures result == if old(alpha.byte + beta.byte) >= ULONG || old(alpha.bit + beta.bit) >= UCHAR then -1 else 0
      ensures result == 0 ==> View().Abs() == old(alpha.View().Abs() + beta.View().Abs()) && View().Sound()
      ensures result == 0 ==> (wordAligned <==> old(alpha.byte + beta.byte + (alpha.bit + beta.bit) / 8) < ULONG)
      ensures result != 0 ==> View() == old(View())
    {
      var tmp := new BB();
      tmp.byte := (alpha.byte + beta.byte) % ULONG;
      WrapSeen(alpha.byte, beta.byte);
      if tmp.byte < alpha.byte {
        return -1;
      }
      tmp.bit := (alpha.bit + beta.bit) % UCHAR;
      CharWrapSeen(alpha.bit, beta.bit);
      if tmp.bit < alpha.bit {
        return -1;
      }
      tmp.byteAligned, tmp.wordAligned := false, false;
      WordNormalisedMeans(tmp.View());
      hide WordNormalised;
      // The flags in common are joined with the word flag, so the test for them always holds.
      var _ := tmp.WordNormalise();
      byte, bit, byteAligned, wordAligned := tmp.byte, tmp.bit, tmp.byteAligned, tmp.wordAligned;
      return 0;
    }
  }

  lemma CharWrapSeen(a: nat, b: nat)
    requires a < UCHAR && b < UCHAR
    ensures (a + b) % UCHAR < a <==> a + b >= UCHAR
    ensures a + b < UCHAR ==> (a + b) % UCHAR == a + b
  {
  }
}
