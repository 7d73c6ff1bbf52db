/** The bit-level reading of base 32: a byte sequence is a big-endian string of
    bits (the most significant bit of each byte first), and base 32 cuts that
    string into 5-bit groups, most significant bit first (the 40-bit quantum of
    section 6 of RFC 4648). The codec loops are proved against the functions
    of this module. Bytes are `bv8` and 5-bit values `bv5`. */
module BitString {

  /** The mask of bit `t` of a byte, counting from the most significant bit. */
  function MsbMask(t: nat): bv8
    requires t < 8
  {
    match t
    case 0 => 0x80 case 1 => 0x40 case 2 => 0x20 case 3 => 0x10
    case 4 => 0x08 case 5 => 0x04 case 6 => 0x02 case _ => 0x01
  }

  /** Bit `t` of byte `x`, counting from the most significant bit. */
  predicate ByteBit(x: bv8, t: nat)
    requires t < 8
  {
    x & MsbMask(t) != 0
  }

  /** The mask of bit `u` of a 5-bit value, counting from the most significant bit. */
  function Mask5(u: nat): bv5
    requires u < 5
  {
    match u case 0 => 0x10 case 1 => 0x08 case 2 => 0x04 case 3 => 0x02 case _ => 0x01
  }

  /** Bit `u` of a 5-bit value, counting from the most significant bit. */
  predicate ValueBit(v: bv5, u: nat)
    requires u < 5
  {
    v & Mask5(u) != 0
  }

  /** The 5-bit value with bits `b0` (most significant) to `b4`. */
  function Pack5(b0: bool, b1: bool, b2: bool, b3: bool, b4: bool): (v: bv5)
    ensures ValueBit(v, 0) == b0 && ValueBit(v, 1) == b1 && ValueBit(v, 2) == b2
    ensures ValueBit(v, 3) == b3 && ValueBit(v, 4) == b4
  {
    (if b0 then 0x10 else 0) | (if b1 then 0x08 else 0) | (if b2 then 0x04 else 0) |
    (if b3 then 0x02 else 0) | (if b4 then 0x01 else 0)
  }

  /** The low nibble with bits `b0` (most significant) to `b3`. */
  function Nibble(b0: bool, b1: bool, b2: bool, b3: bool): (x: bv8)
    ensures x < 16
    ensures ByteBit(x, 4) == b0 && ByteBit(x, 5) == b1 && ByteBit(x, 6) == b2 && ByteBit(x, 7) == b3
  {
    (if b0 then 0x08 else 0) | (if b1 then 0x04 else 0) | (if b2 then 0x02 else 0) | (if b3 then 0x01 else 0)
  }

  /** The byte with bits `b0` (most significant) to `b7`. */
  function Pack8(b0: bool, b1: bool, b2: bool, b3: bool, b4: bool, b5: bool, b6: bool, b7: bool): (x: bv8)
    ensures ByteBit(x, 0) == b0 && ByteBit(x, 1) == b1 && ByteBit(x, 2) == b2 && ByteBit(x, 3) == b3
    ensures ByteBit(x, 4) == b4 && ByteBit(x, 5) == b5 && ByteBit(x, 6) == b6 && ByteBit(x, 7) == b7
  {
    (Nibble(b0, b1, b2, b3) << 4) | Nibble(b4, b5, b6, b7)
  }

  /** Bytes with the same bits are equal. */
  lemma ByteExt(x: bv8, y: bv8)
    requires forall t :: 0 <= t < 8 ==> ByteBit(x, t) == ByteBit(y, t)
    ensures x == y
  {
    assert ByteBit(x, 0) == ByteBit(y, 0) && ByteBit(x, 1) == ByteBit(y, 1);
    assert ByteBit(x, 2) == ByteBit(y, 2) && ByteBit(x, 3) == ByteBit(y, 3);
    assert ByteBit(x, 4) == ByteBit(y, 4) && ByteBit(x, 5) == ByteBit(y, 5);
    assert ByteBit(x, 6) == ByteBit(y, 6) && ByteBit(x, 7) == ByteBit(y, 7);
  }

  /* ---------------------------------------------------------------------- */
  /* Bytes as a bit string                                                    */
  /* ---------------------------------------------------------------------- */

  /** Bit `k` of the big-endian bit string of `bytes`; bits past the end read
      as 0. Written one byte at a time; `BitOfByte` gives the closed form. */
  predicate Bit(bytes: seq<bv8>, k: nat)
    decreases |bytes|
  {
    if |bytes| == 0 then false
    else if k < 8 then ByteBit(bytes[0], k)
    else Bit(bytes[1..], k - 8)
  }

  /** Bit `8j + t` is bit `t` of byte `j`, and there are no bits past the end. */
  lemma {:induction false} BitOfByte(bytes: seq<bv8>, j: nat, t: nat)
    requires t < 8
    ensures Bit(bytes, 8 * j + t) == (j < |bytes| && ByteBit(bytes[j], t))
    decreases j
  {
    if |bytes| > 0 && j > 0 {
      BitOfByte(bytes[1..], j - 1, t);
    }
  }

  /** There are no bits past the end. */
  lemma {:induction false} BitPastEnd(bytes: seq<bv8>, k: nat)
    requires k >= 8 * |bytes|
    ensures !Bit(bytes, k)
    decreases |bytes|
  {
    if |bytes| > 0 {
      BitPastEnd(bytes[1..], k - 8);
    }
  }

  /** The 5-bit group that starts at bit `b`. */
  function GroupAt(bytes: seq<bv8>, b: nat): (v: bv5)
    ensures ValueBit(v, 0) == Bit(bytes, b) && ValueBit(v, 1) == Bit(bytes, b + 1)
    ensures ValueBit(v, 2) == Bit(bytes, b + 2) && ValueBit(v, 3) == Bit(bytes, b + 3)
    ensures ValueBit(v, 4) == Bit(bytes, b + 4)
  {
    Pack5(Bit(bytes, b), Bit(bytes, b + 1), Bit(bytes, b + 2), Bit(bytes, b + 3), Bit(bytes, b + 4))
  }

  /** Bit `u` of the group at bit `b` is bit `b + u` of the bytes. */
  lemma GroupAtBit(bytes: seq<bv8>, b: nat, u: nat)
    requires u < 5
    ensures ValueBit(GroupAt(bytes, b), u) == Bit(bytes, b + u)
  {
    var v := GroupAt(bytes, b);
    if u == 0 {} else if u == 1 {} else if u == 2 {} else if u == 3 {} else {}
  }

  /** The number of groups needed to cover `n` bytes: the ceiling of 8n/5. */
  function GroupCount(n: nat): nat {
    (8 * n + 4) / 5
  }

  /** The bytes cut into 5-bit groups, the last one filled up with zero bits. */
  function Groups(bytes: seq<bv8>): (gs: seq<bv5>)
    ensures |gs| == GroupCount(|bytes|)
  {
    seq(GroupCount(|bytes|), (k: nat) => GroupAt(bytes, 5 * k))
  }

  /* ---------------------------------------------------------------------- */
  /* 5-bit values as a bit string                                            */
  /* ---------------------------------------------------------------------- */

  /** Bit `k` of the concatenated 5-bit values; bits past the end read as 0.
      Written one value at a time; `ValuesBitAt` gives the closed form. */
  predicate ValuesBit(vs: seq<bv5>, k: nat)
    decreases |vs|
  {
    if |vs| == 0 then false
    else if k < 5 then ValueBit(vs[0], k)
    else ValuesBit(vs[1..], k - 5)
  }

  /** Bit `5q + r` is bit `r` of value `q`, and there are no bits past the end. */
  lemma {:induction false} ValuesBitAt(vs: seq<bv5>, q: nat, r: nat)
    requires r < 5
    ensures ValuesBit(vs, 5 * q + r) == (q < |vs| && ValueBit(vs[q], r))
    decreases q
  {
    if |vs| > 0 && q > 0 {
      ValuesBitAt(vs[1..], q - 1, r);
    }
  }

  /** There are no bits past the end. */
  lemma {:induction false} ValuesBitPastEnd(vs: seq<bv5>, k: nat)
    requires k >= 5 * |vs|
    ensures !ValuesBit(vs, k)
    decreases |vs|
  {
    if |vs| > 0 {
      ValuesBitPastEnd(vs[1..], k - 5);
    }
  }

  /** Appending a value extends the bit string by that value's five bits. */
  lemma {:induction false} ValuesBitAppend(vs: seq<bv5>, v: bv5, k: nat)
    ensures ValuesBit(vs + [v], k) ==
      if k < 5 * |vs| then ValuesBit(vs, k)
      else k < 5 * |vs| + 5 && ValueBit(v, k - 5 * |vs|)
    decreases |vs|
  {
    if |vs| > 0 && k >= 5 {
      assert (vs + [v])[1..] == vs[1..] + [v];
      ValuesBitAppend(vs[1..], v, k - 5);
    }
  }

  /** The byte that starts at bit `k` of the concatenated values. */
  function OctetAt(vs: seq<bv5>, k: nat): (x: bv8)
    ensures ByteBit(x, 0) == ValuesBit(vs, k) && ByteBit(x, 1) == ValuesBit(vs, k + 1)
    ensures ByteBit(x, 2) == ValuesBit(vs, k + 2) && ByteBit(x, 3) == ValuesBit(vs, k + 3)
    ensures ByteBit(x, 4) == ValuesBit(vs, k + 4) && ByteBit(x, 5) == ValuesBit(vs, k + 5)
    ensures ByteBit(x, 6) == ValuesBit(vs, k + 6) && ByteBit(x, 7) == ValuesBit(vs, k + 7)
  {
    Pack8(ValuesBit(vs, k), ValuesBit(vs, k + 1), ValuesBit(vs, k + 2), ValuesBit(vs, k + 3),
          ValuesBit(vs, k + 4), ValuesBit(vs, k + 5), ValuesBit(vs, k + 6), ValuesBit(vs, k + 7))
  }

  /** Bit `t` of the byte at bit `k` is bit `k + t` of the values. */
  lemma OctetAtBit(vs: seq<bv5>, k: nat, t: nat)
    requires t < 8
    ensures ByteBit(OctetAt(vs, k), t) == ValuesBit(vs, k + t)
  {
    var x := OctetAt(vs, k);
    if t == 0 {} else if t == 1 {} else if t == 2 {} else if t == 3 {}
    else if t == 4 {} else if t == 5 {} else if t == 6 {} else {}
  }

  /** The number of bytes the decoder makes of `c` values: every complete byte,
      and one more when 5 to 7 bits are left over. */
  function ByteCount(c: nat): nat {
    5 * c / 8 + (if 5 * c % 8 >= 5 then 1 else 0)
  }

  /** The bytes the decoder makes of a sequence of values. */
  function Octets(vs: seq<bv5>): (bytes: seq<bv8>)
    ensures |bytes| == ByteCount(|vs|)
  {
    seq(ByteCount(|vs|), (j: nat) => OctetAt(vs, 8 * j))
  }

  /* ---------------------------------------------------------------------- */
  /* Round trip                                                              */
  /* ---------------------------------------------------------------------- */

  /** Cutting into groups keeps the bit string, padding it with zero bits. */
  lemma GroupsBits(bytes: seq<bv8>, k: nat)
    ensures ValuesBit(Groups(bytes), k) == Bit(bytes, k)
  {
    var gs := Groups(bytes);
    var q, r := k / 5, k % 5;
    ValuesBitAt(gs, q, r);
    if q < |gs| {
      GroupAtBit(bytes, 5 * q, r);
    } else {
      BitOfByte(bytes, k / 8, k % 8);
    }
  }

  /** The decoder makes exactly one byte per 8 bits of the groups of `n`
      bytes: the leftover is at most 4 bits. */
  lemma ByteCountOfGroupCount(n: nat)
    ensures ByteCount(GroupCount(n)) == n
  {
    var c := GroupCount(n);
    assert 8 * n <= 5 * c <= 8 * n + 4;
  }

  lemma OctetOfGroupsBit(bytes: seq<bv8>, j: nat, t: nat)
    requires j < |bytes| && t < 8
    ensures ByteBit(OctetAt(Groups(bytes), 8 * j), t) == ByteBit(bytes[j], t)
  {
    OctetAtBit(Groups(bytes), 8 * j, t);
    GroupsBits(bytes, 8 * j + t);
    BitOfByte(bytes, j, t);
  }

  lemma OctetOfGroups(bytes: seq<bv8>, j: nat)
    requires j < |bytes|
    ensures OctetAt(Groups(bytes), 8 * j) == bytes[j]
  {
    var x := OctetAt(Groups(bytes), 8 * j);
    forall t | 0 <= t < 8 ensures ByteBit(x, t) == ByteBit(bytes[j], t) {
      OctetOfGroupsBit(bytes, j, t);
    }
    ByteExt(x, bytes[j]);
  }

  /** Packing the groups of some bytes gives the bytes back. */
  lemma OctetsOfGroups(bytes: seq<bv8>)
    ensures Octets(Groups(bytes)) == bytes
  {
    ByteCountOfGroupCount(|bytes|);
    forall j | 0 <= j < |bytes| ensures Octets(Groups(bytes))[j] == bytes[j] {
      OctetOfGroups(bytes, j);
    }
  }
}
