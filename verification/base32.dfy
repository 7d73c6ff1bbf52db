/** The base 32 codec: `BitsAtOffset`, the encoder and the decoder, each
    proved against the bit-string reading of `BitString`. */
module Base32 {
  import opened Wrappers
  import opened Alphabets
  import opened BitString

  /* ---------------------------------------------------------------------- */
  /* Selecting bits                                                          */
  /* ---------------------------------------------------------------------- */

  /** `length` bits starting at bit `off` of the 16-bit window `b0 b1`, right
      aligned; `b1` is only read when `hasNext` holds and the bits run into it.
      This is the arithmetic of the original once the byte index is fixed; the
      original works on sign-extended ints, whose bits above the low byte its
      masks remove, so bytes are modelled unsigned. */
  function SelectBits(b0: bv8, b1: bv8, hasNext: bool, off: nat, length: nat): bv8
    requires off < 8 && 1 <= length <= 8
  {
    var mask: bv8 := ((1 << length) - 1) << (8 - length);
    var half := (b0 << off) & mask;
    var full := if off + length <= 8 || !hasNext then half else half | ((b1 & (mask << (8 - off))) >> (8 - off));
    full >> (8 - length)
  }

  /** At most 8 bits of `bytes` starting at bit `bitIndex`, right aligned; 0
      when `bitIndex` is past the last byte. */
  function BitsAtOffset(bytes: seq<bv8>, bitIndex: nat, length: nat): (r: bv8)
    requires 1 <= length <= 8
    ensures bitIndex / 8 >= |bytes| ==> r == 0
  {
    var i := bitIndex / 8;
    if i >= |bytes| then 0
    else
      var off := bitIndex - i * 8;
      var hasNext := i + 1 < |bytes|;
      SelectBits(bytes[i], if hasNext then bytes[i + 1] else 0, hasNext, off, length)
  }

  /** Bit `s` of the window `b0 b1`, with the second byte reading as 0 when absent. */
  predicate PairBit(b0: bv8, b1: bv8, hasNext: bool, s: nat)
    requires s < 16
  {
    if s < 8 then ByteBit(b0, s) else hasNext && ByteBit(b1, s - 8)
  }

  lemma SelectAt0(b0: bv8, b1: bv8, hasNext: bool, off: nat)
    requires off == 0
    ensures SelectBits(b0, b1, hasNext, off, 5) as int ==
      Pack5(PairBit(b0, b1, hasNext, off), PairBit(b0, b1, hasNext, off + 1), PairBit(b0, b1, hasNext, off + 2),
            PairBit(b0, b1, hasNext, off + 3), PairBit(b0, b1, hasNext, off + 4)) as int
  {
  }
  lemma SelectAt1(b0: bv8, b1: bv8, hasNext: bool, off: nat)
    requires off == 1
    ensures SelectBits(b0, b1, hasNext, off, 5) as int ==
      Pack5(PairBit(b0, b1, hasNext, off), PairBit(b0, b1, hasNext, off + 1), PairBit(b0, b1, hasNext, off + 2),
            PairBit(b0, b1, hasNext, off + 3), PairBit(b0, b1, hasNext, off + 4)) as int
  {
  }
  lemma SelectAt2(b0: bv8, b1: bv8, hasNext: bool, off: nat)
    requires off == 2
    ensures SelectBits(b0, b1, hasNext, off, 5) as int ==
      Pack5(PairBit(b0, b1, hasNext, off), PairBit(b0, b1, hasNext, off + 1), PairBit(b0, b1, hasNext, off + 2),
            PairBit(b0, b1, hasNext, off + 3), PairBit(b0, b1, hasNext, off + 4)) as int
  {
  }
  lemma SelectAt3(b0: bv8, b1: bv8, hasNext: bool, off: nat)
    requires off == 3
    ensures SelectBits(b0, b1, hasNext, off, 5) as int ==
      Pack5(PairBit(b0, b1, hasNext, off), PairBit(b0, b1, hasNext, off + 1), PairBit(b0, b1, hasNext, off + 2),
            PairBit(b0, b1, hasNext, off + 3), PairBit(b0, b1, hasNext, off + 4)) as int
  {
  }
  lemma SelectAt4(b0: bv8, b1: bv8, hasNext: bool, off: nat)
    requires off == 4
    ensures SelectBits(b0, b1, hasNext, off, 5) as int ==
      Pack5(PairBit(b0, b1, hasNext, off), PairBit(b0, b1, hasNext, off + 1), PairBit(b0, b1, hasNext, off + 2),
            PairBit(b0, b1, hasNext, off + 3), PairBit(b0, b1, hasNext, off + 4)) as int
  {
  }
  lemma SelectAt5(b0: bv8, b1: bv8, hasNext: bool, off: nat)
    requires off == 5
    ensures SelectBits(b0, b1, hasNext, off, 5) as int ==
      Pack5(PairBit(b0, b1, hasNext, off), PairBit(b0, b1, hasNext, off + 1), PairBit(b0, b1, hasNext, off + 2),
            PairBit(b0, b1, hasNext, off + 3), PairBit(b0, b1, hasNext, off + 4)) as int
  {
  }
  lemma SelectAt6(b0: bv8, b1: bv8, hasNext: bool, off: nat)
    requires off == 6
    ensures SelectBits(b0, b1, hasNext, off, 5) as int ==
      Pack5(PairBit(b0, b1, hasNext, off), PairBit(b0, b1, hasNext, off + 1), PairBit(b0, b1, hasNext, off + 2),
            PairBit(b0, b1, hasNext, off + 3), PairBit(b0, b1, hasNext, off + 4)) as int
  {
  }
  lemma SelectAt7(b0: bv8, b1: bv8, hasNext: bool, off: nat)
    requires off == 7
    ensures SelectBits(b0, b1, hasNext, off, 5) as int ==
      Pack5(PairBit(b0, b1, hasNext, off), PairBit(b0, b1, hasNext, off + 1), PairBit(b0, b1, hasNext, off + 2),
            PairBit(b0, b1, hasNext, off + 3), PairBit(b0, b1, hasNext, off + 4)) as int
  {
  }

  /** Five bits of the window at any offset, as a 5-bit value. */
  lemma SelectFive(b0: bv8, b1: bv8, hasNext: bool, off: nat)
    requires off < 8
    ensures SelectBits(b0, b1, hasNext, off, 5) as int ==
      Pack5(PairBit(b0, b1, hasNext, off), PairBit(b0, b1, hasNext, off + 1), PairBit(b0, b1, hasNext, off + 2),
            PairBit(b0, b1, hasNext, off + 3), PairBit(b0, b1, hasNext, off + 4)) as int
  {
    if off == 0 { SelectAt0(b0, b1, hasNext, off); }
    else if off == 1 { SelectAt1(b0, b1, hasNext, off); }
    else if off == 2 { SelectAt2(b0, b1, hasNext, off); }
    else if off == 3 { SelectAt3(b0, b1, hasNext, off); }
    else if off == 4 { SelectAt4(b0, b1, hasNext, off); }
    else if off == 5 { SelectAt5(b0, b1, hasNext, off); }
    else if off == 6 { SelectAt6(b0, b1, hasNext, off); }
    else { SelectAt7(b0, b1, hasNext, off); }
  }

  /** Bit `off + u` of the window at byte `i` is bit `8i + off + u` of the bytes. */
  lemma PairBitIsBit(bytes: seq<bv8>, i: nat, off: nat, u: nat)
    requires i < |bytes| && off < 8 && u < 5
    ensures PairBit(bytes[i], if i + 1 < |bytes| then bytes[i + 1] else 0, i + 1 < |bytes|, off + u)
      == Bit(bytes, 8 * i + off + u)
  {
    if off + u < 8 {
      BitOfByte(bytes, i, off + u);
    } else {
      BitOfByte(bytes, i + 1, off + u - 8);
    }
  }

  /** Five bits at offset `b` are the 5-bit group of the bit string at `b`,
      bits past the end reading as 0. */
  lemma BitsAtOffsetIsGroup(bytes: seq<bv8>, b: nat)
    ensures BitsAtOffset(bytes, b, 5) as int == GroupAt(bytes, b) as int
  {
    var i, off := b / 8, b % 8;
    if i >= |bytes| {
      GroupPastEnd(bytes, b);
    } else {
      var hasNext := i + 1 < |bytes|;
      var b1 := if hasNext then bytes[i + 1] else 0;
      assert b == 8 * i + off;
      assert BitsAtOffset(bytes, b, 5) == SelectBits(bytes[i], b1, hasNext, off, 5);
      SelectFive(bytes[i], b1, hasNext, off);
      GroupIsWindow(bytes, i, off);
    }
  }

  /** The group at a bit past the end is 0. */
  lemma GroupPastEnd(bytes: seq<bv8>, b: nat)
    requires b >= 8 * |bytes|
    ensures GroupAt(bytes, b) == 0
  {
    BitPastEnd(bytes, b);
    BitPastEnd(bytes, b + 1);
    BitPastEnd(bytes, b + 2);
    BitPastEnd(bytes, b + 3);
    BitPastEnd(bytes, b + 4);
    assert GroupAt(bytes, b) == Pack5(false, false, false, false, false);
  }

  /** The group at bit `8i + off` is read from the window of bytes `i` and `i + 1`. */
  lemma GroupIsWindow(bytes: seq<bv8>, i: nat, off: nat)
    requires i < |bytes| && off < 8
    ensures var hasNext := i + 1 < |bytes|;
      var b1 := if hasNext then bytes[i + 1] else 0;
      GroupAt(bytes, 8 * i + off) ==
        Pack5(PairBit(bytes[i], b1, hasNext, off), PairBit(bytes[i], b1, hasNext, off + 1),
              PairBit(bytes[i], b1, hasNext, off + 2), PairBit(bytes[i], b1, hasNext, off + 3),
              PairBit(bytes[i], b1, hasNext, off + 4))
  {
    PairBitIsBit(bytes, i, off, 0);
    PairBitIsBit(bytes, i, off, 1);
    PairBitIsBit(bytes, i, off, 2);
    PairBitIsBit(bytes, i, off, 3);
    PairBitIsBit(bytes, i, off, 4);
  }

  /* ---------------------------------------------------------------------- */
  /* Encoding                                                                */
  /* ---------------------------------------------------------------------- */

  /** The alphabet has no symbol for a 5-bit value (only an alphabet that
      breaks the contract can do this). */
  datatype EncodeError = UnsupportedIndex(index: int)

  /** The number of padding characters after `n` bytes: enough symbols to fill
      the last 40-bit quantum. Written as in the original. */
  function PadCount(n: nat): nat {
    ((n + 4) / 5 * 5 - n) * 8 / 5
  }

  /** The symbols of a sequence of 5-bit values, failing at the first value
      the alphabet has no symbol for. */
  function ToChars(vs: seq<bv5>, a: Alphabet): (r: Result<string, EncodeError>)
    ensures r.Success? <==> forall i :: 0 <= i < |vs| ==> a.toChar(vs[i] as int).Some?
    ensures r.Success? ==> |r.value| == |vs|
    ensures r.Success? ==> forall i :: 0 <= i < |vs| ==> a.toChar(vs[i] as int) == Some(r.value[i])
  {
    if vs == [] then Success([])
    else
      assert forall i :: 0 <= i < |vs| - 1 ==> vs[..|vs| - 1][i] == vs[i];
      var init :- ToChars(vs[..|vs| - 1], a);
      var v := vs[|vs| - 1] as int;
      match a.toChar(v)
      case None => Failure(UnsupportedIndex(v))
      case Some(c) => Success(init + [c])
  }

  /** `n` copies of the padding character. */
  function Pads(pad: char, n: nat): (s: string)
    ensures |s| == n && forall i :: 0 <= i < n ==> s[i] == pad
  {
    seq(n, _ => pad)
  }

  /** What the encoder produces: one symbol per 5-bit group of the bytes, then,
      if the alphabet has a padding character, `PadCount` of them. */
  function EncodeSpec(bytes: seq<bv8>, a: Alphabet): Result<string, EncodeError> {
    var data :- ToChars(Groups(bytes), a);
    Success(data + if a.pad != NoPad then Pads(a.pad, PadCount(|bytes|)) else [])
  }

  /** The encoder: a loop over bit offsets 0, 5, 10, ... while the offset is
      inside the bytes, then the padding loop. */
  method Encode(bytes: seq<bv8>, a: Alphabet) returns (r: Result<string, EncodeError>)
    ensures r == EncodeSpec(bytes, a)
  {
    ghost var gs := Groups(bytes);
    var out: string := [];
    var bidx: nat := 0;
    ghost var k: nat := 0;
    while bidx / 8 < |bytes|
      invariant bidx == 5 * k && k <= |gs|
      invariant bidx / 8 < |bytes| <==> k < |gs|
      invariant ToChars(gs[..k], a) == Success(out)
      decreases |gs| - k
    {
      var v := BitsAtOffset(bytes, bidx, 5);
      BitsAtOffsetIsGroup(bytes, bidx);
      assert v as int == gs[k] as int;
      ToCharsStep(gs, k, a);
      match a.toChar(v as int)
      case None =>
        ToCharsFailurePersists(gs, k + 1, a);
        return Failure(UnsupportedIndex(v as int));
      case Some(c) =>
        out := out + [c];
      bidx := bidx + 5;
      k := k + 1;
      GroupCountByOffset(|bytes|, k);
    }
    assert gs[..k] == gs;
    assert ToChars(Groups(bytes), a) == Success(out);
    ghost var data := out;
    if a.pad != NoPad {
      out := AppendPadding(out, a.pad, PadCount(|bytes|));
    } else {
      assert out == data + [];
    }
    return Success(out);
  }

  /** The encoder's loop condition: the offset of group `k` lies inside the
      bytes exactly when `k` is below the number of groups. */
  lemma GroupCountByOffset(n: nat, k: nat)
    ensures 5 * k / 8 < n <==> k < GroupCount(n)
  {
  }

  /** The padding loop of the encoder. */
  method AppendPadding(s: string, pad: char, n: nat) returns (r: string)
    ensures r == s + Pads(pad, n)
  {
    r := s;
    var i := 0;
    while i < n
      invariant 0 <= i <= n
      invariant r == s + Pads(pad, i)
    {
      r := r + [pad];
      i := i + 1;
      assert Pads(pad, i) == Pads(pad, i - 1) + [pad];
    }
  }

  /** One more value: its symbol is appended, or the encoding fails on it. */
  lemma ToCharsStep(vs: seq<bv5>, k: nat, a: Alphabet)
    requires k < |vs| && ToChars(vs[..k], a).Success?
    ensures ToChars(vs[..k + 1], a) ==
      match a.toChar(vs[k] as int)
      case None => Failure(UnsupportedIndex(vs[k] as int))
      case Some(c) => Success(ToChars(vs[..k], a).value + [c])
  {
    assert vs[..k + 1][..k] == vs[..k];
  }

  /** A failure on a prefix of the values is the failure of the whole. */
  lemma {:induction false} ToCharsFailurePersists(vs: seq<bv5>, k: nat, a: Alphabet)
    requires k <= |vs| && ToChars(vs[..k], a).Failure?
    ensures ToChars(vs, a) == ToChars(vs[..k], a)
    decreases |vs| - k
  {
    if k < |vs| {
      assert vs[..k + 1][..k] == vs[..k];
      ToCharsFailurePersists(vs, k + 1, a);
    } else {
      assert vs[..k] == vs;
    }
  }

  /* ---------------------------------------------------------------------- */
  /* Decoding: the reference                                                 */
  /* ---------------------------------------------------------------------- */

  /** Why a string is not base 32; `index` is the position of the offending
      character in the input. */
  datatype DecodeError =
    | InvalidSymbol(symbol: char, index: nat)
    | UnexpectedAfterPadding(symbol: char, index: nat)
    | MalformedPadding(expected: nat)

  /** What the decoder has read so far: the values of the data symbols and the
      number of padding characters. */
  datatype Scanned = Scanned(values: seq<bv5>, padding: nat)

  /** Whether `c` is the alphabet's padding character. */
  predicate IsPad(a: Alphabet, c: char) {
    a.pad != NoPad && c == a.pad
  }

  /** Reading character `c` at position `idx`: a padding character is counted,
      an ignored character skipped, and anything else after the first padding
      character rejected, whether or not it is a symbol; a symbol contributes
      its value and any other character is rejected. */
  function Step(st: Scanned, c: char, idx: nat, a: Alphabet): Result<Scanned, DecodeError> {
    if IsPad(a, c) then Success(st.(padding := st.padding + 1))
    else if a.ignore(c) then Success(st)
    else if st.padding > 0 then Failure(UnexpectedAfterPadding(c, idx))
    else match a.toIndex(c)
      case None => Failure(InvalidSymbol(c, idx))
      case Some(v) => Success(st.(values := st.values + [v as bv5]))
  }

  /** Reads a whole string from left to right, stopping at the first error. */
  function Scan(s: string, a: Alphabet): Result<Scanned, DecodeError>
    decreases |s|
  {
    if s == [] then Success(Scanned([], 0))
    else
      match Scan(s[..|s| - 1], a)
      case Failure(e) => Failure(e)
      case Success(prev) => Step(prev, s[|s| - 1], |s| - 1, a)
  }

  /** What the decoder produces: the bytes of the values read, provided the
      number of padding characters is 0 or the number the encoder would have
      written for that many bytes. */
  function DecodeSpec(s: string, a: Alphabet): Result<seq<bv8>, DecodeError> {
    match Scan(s, a)
    case Failure(e) => Failure(e)
    case Success(done) =>
      var bytes := Octets(done.values);
      var expected := PadCount(|bytes|);
      if done.padding != 0 && done.padding != expected then Failure(MalformedPadding(expected))
      else Success(bytes)
  }

  /** One more character of a prefix. */
  lemma ScanStep(s: string, i: nat, a: Alphabet)
    requires i < |s|
    ensures Scan(s[..i], a).Failure? ==> Scan(s[..i + 1], a) == Scan(s[..i], a)
    ensures Scan(s[..i], a).Success? ==> Scan(s[..i + 1], a) == Step(Scan(s[..i], a).value, s[i], i, a)
  {
    assert s[..i + 1][..i] == s[..i];
  }

  /** The first error is the error of the whole string. */
  lemma {:induction false} ScanFailurePersists(s: string, i: nat, a: Alphabet)
    requires i <= |s| && Scan(s[..i], a).Failure?
    ensures Scan(s, a) == Scan(s[..i], a)
    decreases |s| - i
  {
    if i < |s| {
      ScanStep(s, i, a);
      ScanFailurePersists(s, i + 1, a);
    } else {
      assert s[..i] == s;
    }
  }

  /* ---------------------------------------------------------------------- */
  /* Decoding: the bit buffer                                                */
  /* ---------------------------------------------------------------------- */

  lemma OrBit(x: bv8, y: bv8, t: nat)
    requires t < 8
    ensures ByteBit(x | y, t) == (ByteBit(x, t) || ByteBit(y, t))
  {
  }

  /** A value shifted into the buffer at bit `bidx` occupies bits `bidx` to `bidx + 4`. */
  lemma ShiftedBit(v: bv5, bidx: nat, t: nat)
    requires bidx < 8 && t < 8
    ensures ByteBit(((v as bv8) << 3) >> bidx, t) == (bidx <= t < bidx + 5 && ValueBit(v, t - bidx))
  {
  }

  lemma ShiftedBits(v: bv5, bidx: nat, shifted: bv8)
    requires bidx < 8 && shifted == ((v as bv8) << 3) >> bidx
    ensures forall t :: 0 <= t < 8 ==> ByteBit(shifted, t) == (bidx <= t < bidx + 5 && ValueBit(v, t - bidx))
  {
    forall t | 0 <= t < 8
      ensures ByteBit(shifted, t) == (bidx <= t < bidx + 5 && ValueBit(v, t - bidx))
    {
      ShiftedBit(v, bidx, t);
    }
  }

  /** The last `rest` bits of a value, moved to the top of a fresh buffer. */
  lemma CarryBit(v: bv5, rest: nat, t: nat)
    requires rest < 5 && t < 8
    ensures ByteBit(Carry(v, rest), t) == (t < rest && ValueBit(v, 5 - rest + t))
  {
  }

  /** Appending a value leaves every complete byte before it unchanged. */
  lemma OctetStable(vs: seq<bv5>, v: bv5, j: nat)
    requires 8 * j + 8 <= 5 * |vs|
    ensures OctetAt(vs + [v], 8 * j) == OctetAt(vs, 8 * j)
  {
    forall t | 0 <= t < 8 ensures ByteBit(OctetAt(vs + [v], 8 * j), t) == ByteBit(OctetAt(vs, 8 * j), t) {
      OctetAtBit(vs + [v], 8 * j, t);
      OctetAtBit(vs, 8 * j, t);
      ValuesBitAppend(vs, v, 8 * j + t);
    }
    ByteExt(OctetAt(vs + [v], 8 * j), OctetAt(vs, 8 * j));
  }

  /** Bit `t` of the buffer after a value is or-ed in at bit `bidx`, in terms of
      the bits of the values. */
  lemma AbsorbBit(vs: seq<bv5>, v: bv5, accLen: nat, bidx: nat, t: nat)
    requires bidx < 8 && 5 * |vs| == 8 * accLen + bidx && t < 8
    ensures ByteBit(OctetAt(vs + [v], 8 * accLen), t) ==
      (ByteBit(OctetAt(vs, 8 * accLen), t) || (bidx <= t < bidx + 5 && ValueBit(v, t - bidx)))
  {
    OctetAtBit(vs, 8 * accLen, t);
    OctetAtBit(vs + [v], 8 * accLen, t);
    ValuesBitAppend(vs, v, 8 * accLen + t);
    if t >= bidx {
      ValuesBitPastEnd(vs, 8 * accLen + t);
    }
  }

  /** `Absorb` for a value already shifted into place (`ShiftedBit`). */
  lemma AbsorbShifted(vs: seq<bv5>, v: bv5, accLen: nat, bidx: nat, buffer: bv8, shifted: bv8)
    requires bidx < 8 && 5 * |vs| == 8 * accLen + bidx
    requires buffer == OctetAt(vs, 8 * accLen)
    requires forall t :: 0 <= t < 8 ==> ByteBit(shifted, t) == (bidx <= t < bidx + 5 && ValueBit(v, t - bidx))
    ensures buffer | shifted == OctetAt(vs + [v], 8 * accLen)
  {
    forall t | 0 <= t < 8
      ensures ByteBit(buffer | shifted, t) == ByteBit(OctetAt(vs + [v], 8 * accLen), t)
    {
      OrBit(buffer, shifted, t);
      AbsorbBit(vs, v, accLen, bidx, t);
    }
    ByteExt(buffer | shifted, OctetAt(vs + [v], 8 * accLen));
  }

  /** Or-ing a value into the partial byte at bit `bidx`: the buffer holds
      the (partial) byte at bit `8 * accLen` of the values read so far, before
      and after. */
  lemma Absorb(vs: seq<bv5>, v: bv5, accLen: nat, bidx: nat, buffer: bv8)
    requires bidx < 8 && 5 * |vs| == 8 * accLen + bidx
    requires buffer == OctetAt(vs, 8 * accLen)
    ensures Merge(buffer, v, bidx) == OctetAt(vs + [v], 8 * accLen)
  {
    var shifted := ((v as bv8) << 3) >> bidx;
    ShiftedBits(v, bidx, shifted);
    AbsorbShifted(vs, v, accLen, bidx, buffer, shifted);
  }

  lemma CarryOverBit(vs: seq<bv5>, v: bv5, accLen: nat, bidx: nat, rest: nat, t: nat)
    requires 3 <= bidx < 8 && 5 * |vs| == 8 * accLen + bidx && rest == bidx - 3 && t < 8
    ensures ByteBit(Carry(v, rest), t) == ByteBit(OctetAt(vs + [v], 8 * accLen + 8), t)
  {
    CarryBit(v, rest, t);
    OctetAtBit(vs + [v], 8 * accLen + 8, t);
    ValuesBitAppend(vs, v, 8 * accLen + 8 + t);
  }

  /** When a byte is complete, the `rest` bits of the value that did not fit
      start the next byte. */
  lemma CarryOver(vs: seq<bv5>, v: bv5, accLen: nat, bidx: nat, rest: nat)
    requires 3 <= bidx < 8 && 5 * |vs| == 8 * accLen + bidx && rest == bidx - 3
    ensures Carry(v, rest) == OctetAt(vs + [v], 8 * accLen + 8)
  {
    var carried := Carry(v, rest);
    forall t | 0 <= t < 8
      ensures ByteBit(carried, t) == ByteBit(OctetAt(vs + [v], 8 * accLen + 8), t)
    {
      CarryOverBit(vs, v, accLen, bidx, rest, t);
    }
    ByteExt(carried, OctetAt(vs + [v], 8 * accLen + 8));
  }

  /* ---------------------------------------------------------------------- */
  /* Decoding: the loop                                                      */
  /* ---------------------------------------------------------------------- */

  /** The decoder's bit buffer: the bytes completed so far, the partial byte
      and the number of bits it holds. */
  datatype BitBuffer = BitBuffer(bytes: seq<bv8>, buffer: bv8, bidx: nat)

  /** The partial byte with a value or-ed in at bit `bidx`. */
  function Merge(buffer: bv8, v: bv5, bidx: nat): bv8
    requires bidx < 8
  {
    buffer | (((v as bv8) << 3) >> bidx)
  }

  /** A fresh partial byte holding the last `rest` bits of a value. */
  function Carry(v: bv5, rest: nat): bv8
    requires rest < 5
  {
    (v as bv8) << (8 - rest)
  }

  /** Adds the 5 bits of a value: they are or-ed into the partial byte at bit
      `bidx`, and when the byte is complete it is emitted and the bits that did
      not fit start the next one. */
  function Feed(st: BitBuffer, v: bv5): BitBuffer
    requires st.bidx < 8
  {
    var buffer := Merge(st.buffer, v, st.bidx);
    var bidx := st.bidx + 5;
    if bidx >= 8 then
      var rest := bidx - 8;
      BitBuffer(st.bytes + [buffer], Carry(v, rest), rest)
    else BitBuffer(st.bytes, buffer, bidx)
  }

  /** The output once the input is exhausted: the partial byte is emitted when
      it holds at least 5 bits. */
  function Flush(st: BitBuffer): seq<bv8> {
    if st.bidx >= 5 then st.bytes + [st.buffer] else st.bytes
  }

  /** The buffer holds the bits of `vs`: the completed bytes, then the partial
      byte with `bidx` bits. */
  ghost predicate Holds(st: BitBuffer, vs: seq<bv5>) {
    && st.bidx < 8
    && 5 * |vs| == 8 * |st.bytes| + st.bidx
    && (forall j :: 0 <= j < |st.bytes| ==> st.bytes[j] == OctetAt(vs, 8 * j))
    && st.buffer == OctetAt(vs, 8 * |st.bytes|)
  }

  /** An octet that starts past the last value is 0. */
  lemma OctetPastEnd(vs: seq<bv5>, k: nat)
    requires k >= 5 * |vs|
    ensures OctetAt(vs, k) == 0
  {
    forall t | 0 <= t < 8 ensures ByteBit(OctetAt(vs, k), t) == ByteBit(0, t) {
      OctetAtBit(vs, k, t);
      ValuesBitPastEnd(vs, k + t);
    }
    ByteExt(OctetAt(vs, k), 0);
  }

  lemma HoldsInitially()
    ensures Holds(BitBuffer([], 0, 0), [])
  {
    OctetPastEnd([], 0);
  }

  /** Appending a value leaves every completed byte unchanged. */
  lemma BytesStable(bytes: seq<bv8>, vs: seq<bv5>, v: bv5)
    requires 8 * |bytes| <= 5 * |vs|
    requires forall j :: 0 <= j < |bytes| ==> bytes[j] == OctetAt(vs, 8 * j)
    ensures forall j :: 0 <= j < |bytes| ==> bytes[j] == OctetAt(vs + [v], 8 * j)
  {
    forall j | 0 <= j < |bytes| ensures bytes[j] == OctetAt(vs + [v], 8 * j) {
      OctetStable(vs, v, j);
    }
  }

  lemma HoldsOf(bytes: seq<bv8>, buffer: bv8, bidx: nat, vs: seq<bv5>)
    requires bidx < 8 && 5 * |vs| == 8 * |bytes| + bidx
    requires forall j :: 0 <= j < |bytes| ==> bytes[j] == OctetAt(vs, 8 * j)
    requires buffer == OctetAt(vs, 8 * |bytes|)
    ensures Holds(BitBuffer(bytes, buffer, bidx), vs)
  {
  }

  /** A completed byte extends the completed bytes. */
  lemma AppendOctet(bytes: seq<bv8>, x: bv8, vs: seq<bv5>)
    requires forall j :: 0 <= j < |bytes| ==> bytes[j] == OctetAt(vs, 8 * j)
    requires x == OctetAt(vs, 8 * |bytes|)
    ensures forall j :: 0 <= j < |bytes| + 1 ==> (bytes + [x])[j] == OctetAt(vs, 8 * j)
  {
  }

  /** Merging a value into the partial byte completes it as far as the value
      reaches; the completed bytes stay as they are. */
  lemma MergeHolds(st: BitBuffer, vs: seq<bv5>, v: bv5)
    requires Holds(st, vs)
    ensures Merge(st.buffer, v, st.bidx) == OctetAt(vs + [v], 8 * |st.bytes|)
    ensures forall j :: 0 <= j < |st.bytes| ==> st.bytes[j] == OctetAt(vs + [v], 8 * j)
  {
    Absorb(vs, v, |st.bytes|, st.bidx, st.buffer);
    BytesStable(st.bytes, vs, v);
  }

  lemma FeedHoldsCarry(st: BitBuffer, vs: seq<bv5>, v: bv5)
    requires Holds(st, vs) && st.bidx + 5 >= 8
    ensures Holds(Feed(st, v), vs + [v])
  {
    var merged := Merge(st.buffer, v, st.bidx);
    var rest := st.bidx - 3;
    MergeHolds(st, vs, v);
    CarryOver(vs, v, |st.bytes|, st.bidx, rest);
    AppendOctet(st.bytes, merged, vs + [v]);
    HoldsOf(st.bytes + [merged], Carry(v, rest), rest, vs + [v]);
    assert Feed(st, v) == BitBuffer(st.bytes + [merged], Carry(v, rest), rest);
  }

  lemma FeedHoldsNoCarry(st: BitBuffer, vs: seq<bv5>, v: bv5)
    requires Holds(st, vs) && st.bidx + 5 < 8
    ensures Holds(Feed(st, v), vs + [v])
  {
    var merged := Merge(st.buffer, v, st.bidx);
    MergeHolds(st, vs, v);
    HoldsOf(st.bytes, merged, st.bidx + 5, vs + [v]);
    assert Feed(st, v) == BitBuffer(st.bytes, merged, st.bidx + 5);
  }

  /** Feeding a value keeps the buffer in step with the values. */
  lemma FeedHolds(st: BitBuffer, vs: seq<bv5>, v: bv5)
    requires Holds(st, vs)
    ensures Holds(Feed(st, v), vs + [v])
  {
    if st.bidx + 5 >= 8 {
      FeedHoldsCarry(st, vs, v);
    } else {
      FeedHoldsNoCarry(st, vs, v);
    }
  }

  /** Flushing a buffer that holds `vs` yields the bytes of `vs`. */
  lemma FlushIsOctets(st: BitBuffer, vs: seq<bv5>)
    requires Holds(st, vs)
    ensures Flush(st) == Octets(vs)
  {
    assert |Flush(st)| == ByteCount(|vs|);
  }

  /** The decoder: one pass over the characters with a one-byte bit buffer.
      The buffer never holds more than 8 bits, so it is a byte here. */
  method Decode(str: string, a: Alphabet) returns (r: Result<seq<bv8>, DecodeError>)
    ensures r == DecodeSpec(str, a)
  {
    var idx := 0;
    var buf := BitBuffer([], 0, 0);
    var padding: nat := 0;
    ghost var vs: seq<bv5> := [];
    HoldsInitially();
    while idx < |str|
      invariant idx <= |str|
      invariant Scan(str[..idx], a) == Success(Scanned(vs, padding))
      invariant Holds(buf, vs)
    {
      var c := str[idx];
      ScanStep(str, idx, a);
      ghost var before := Scanned(vs, padding);
      if a.pad != NoPad && c == a.pad {
        assert Step(before, c, idx, a) == Success(Scanned(vs, padding + 1));
        padding := padding + 1;
      } else if !a.ignore(c) {
        if padding > 0 {
          ScanFailurePersists(str, idx + 1, a);
          return Failure(UnexpectedAfterPadding(c, idx));
        }
        var index := a.toIndex(c);
        if index.None? {
          ScanFailurePersists(str, idx + 1, a);
          return Failure(InvalidSymbol(c, idx));
        }
        var v := index.value as bv5;
        assert Step(before, c, idx, a) == Success(Scanned(vs + [v], padding));
        FeedHolds(buf, vs, v);
        buf := Feed(buf, v);
        vs := vs + [v];
      }
      idx := idx + 1;
    }
    assert str[..idx] == str;
    var bytes := Flush(buf);
    FlushIsOctets(buf, vs);
    var expected := PadCount(|bytes|);
    if padding != 0 && padding != expected {
      return Failure(MalformedPadding(expected));
    }
    return Success(bytes);
  }
}
