/** Properties of the base 32 codec: what the encoder produces, the round
    trip through the decoder, ignorable characters, the error cases and the
    length of the decoder's output. */
module CodecLaws {
  import opened Wrappers
  import opened Alphabets
  import opened BitString
  import opened Base32
  import opened Rfc4648

  /* ---------------------------------------------------------------------- */
  /* Encoding                                                                */
  /* ---------------------------------------------------------------------- */

  /** With a symbol for every index, every value has its symbol. */
  lemma {:induction false} ToCharsSucceeds(vs: seq<bv5>, a: Alphabet)
    requires forall i :: 0 <= i < 32 ==> a.toChar(i).Some?
    ensures ToChars(vs, a).Success?
    ensures |ToChars(vs, a).value| == |vs|
    ensures forall k :: 0 <= k < |vs| ==> ToChars(vs, a).value[k] == a.toChar(vs[k] as int).value
    decreases |vs|
  {
    if vs != [] {
      var init := vs[..|vs| - 1];
      ToCharsSucceeds(init, a);
      assert a.toChar(vs[|vs| - 1] as int).Some?;
      forall k | 0 <= k < |vs| - 1 ensures vs[k] == init[k] { }
    }
  }

  /** The number of padding characters by the remainder of the length modulo 5:
      none, 6, 4, 3 or 1, completing the last 40-bit quantum. */
  lemma PadCountByRemainder(n: nat)
    ensures PadCount(n) == [0, 6, 4, 3, 1][n % 5]
  {
    var q, r := n / 5, n % 5;
    assert n == 5 * q + r;
    if r == 0 {
      assert (n + 4) / 5 == q;
    } else {
      assert (n + 4) / 5 == q + 1;
      assert (n + 4) / 5 * 5 - n == 5 - r;
    }
  }

  /** Symbols and padding fill whole blocks of 8 characters. */
  lemma EncodedLength(n: nat)
    ensures GroupCount(n) + PadCount(n) == (n + 4) / 5 * 8
  {
    var q, r := n / 5, n % 5;
    assert n == 5 * q + r;
    PadCountByRemainder(n);
    if r == 0 {
      assert (n + 4) / 5 == q;
      assert GroupCount(n) == 8 * q;
    } else {
      assert (n + 4) / 5 == q + 1;
      assert GroupCount(n) == 8 * q + (8 * r + 4) / 5;
    }
  }

  /** For an alphabet that keeps the contract the encoder never fails: it
      writes one symbol per 5-bit group (the ceiling of 8n/5 of them), the
      symbol of that group's value, and then, when the alphabet pads, padding
      characters up to a multiple of 8. The empty input encodes to "". */
  lemma EncodeSucceeds(bytes: seq<bv8>, a: Alphabet)
    requires WellFormed(a)
    ensures EncodeSpec(bytes, a).Success?
    ensures var s := EncodeSpec(bytes, a).value;
      && |s| == (if a.pad != NoPad then (|bytes| + 4) / 5 * 8 else GroupCount(|bytes|))
      && (forall k :: 0 <= k < GroupCount(|bytes|) ==> s[k] == a.toChar(Groups(bytes)[k] as int).value)
      && (forall k :: GroupCount(|bytes|) <= k < |s| ==> s[k] == a.pad)
  {
    ToCharsSucceeds(Groups(bytes), a);
    EncodedLength(|bytes|);
  }

  /* ---------------------------------------------------------------------- */
  /* Round trip                                                              */
  /* ---------------------------------------------------------------------- */

  /** The symbol of a value is read back as that value. */
  lemma SymbolReadBack(st: Scanned, v: bv5, idx: nat, a: Alphabet)
    requires WellFormed(a) && st.padding == 0
    ensures Step(st, a.toChar(v as int).value, idx, a) == Success(st.(values := st.values + [v]))
  {
    var i: Index := v as int;
    var c := a.toChar(i).value;
    assert a.toIndex(c) == Some(i);
    assert (i as bv5) == v;
  }

  /** A string of symbols is read as their values, with no padding. */
  lemma {:induction false} ScanSymbols(vs: seq<bv5>, a: Alphabet)
    requires WellFormed(a)
    ensures ToChars(vs, a).Success?
    ensures Scan(ToChars(vs, a).value, a) == Success(Scanned(vs, 0))
    decreases |vs|
  {
    ToCharsSucceeds(vs, a);
    if vs != [] {
      var init := vs[..|vs| - 1];
      var v := vs[|vs| - 1];
      ScanSymbols(init, a);
      var s := ToChars(vs, a).value;
      assert s == ToChars(init, a).value + [a.toChar(v as int).value];
      assert s[..|s| - 1] == ToChars(init, a).value;
      SymbolReadBack(Scanned(init, 0), v, |s| - 1, a);
      assert init + [v] == vs;
    }
  }

  /** Padding characters are counted, whatever came before. */
  lemma {:induction false} ScanPads(s: string, k: nat, a: Alphabet)
    requires a.pad != NoPad && Scan(s, a).Success?
    ensures Scan(s + Pads(a.pad, k), a) == Success(Scan(s, a).value.(padding := Scan(s, a).value.padding + k))
    decreases k
  {
    if k > 0 {
      ScanPads(s, k - 1, a);
      var t := s + Pads(a.pad, k);
      assert t[..|t| - 1] == s + Pads(a.pad, k - 1);
    } else {
      assert s + Pads(a.pad, 0) == s;
    }
  }

  /** Symbols followed by `k` padding characters decode to the bytes of the
      symbols' values exactly when `k` is 0 or the number the encoder writes
      for that many bytes; otherwise the padding is malformed. */
  lemma SymbolsThenPads(vs: seq<bv5>, k: nat, a: Alphabet)
    requires WellFormed(a) && a.pad != NoPad
    ensures ToChars(vs, a).Success?
    ensures var expected := PadCount(ByteCount(|vs|));
      DecodeSpec(ToChars(vs, a).value + Pads(a.pad, k), a) ==
        if k == 0 || k == expected then Success(Octets(vs)) else Failure(MalformedPadding(expected))
  {
    ScanSymbols(vs, a);
    ScanPads(ToChars(vs, a).value, k, a);
  }

  /** Symbols and padding as the encoder writes them decode to the bytes. */
  lemma RoundTripPadded(bytes: seq<bv8>, a: Alphabet)
    requires WellFormed(a) && a.pad != NoPad
    ensures ToChars(Groups(bytes), a).Success?
    ensures DecodeSpec(ToChars(Groups(bytes), a).value + Pads(a.pad, PadCount(|bytes|)), a) == Success(bytes)
  {
    var gs := Groups(bytes);
    OctetsOfGroups(bytes);
    ByteCountOfGroupCount(|bytes|);
    SymbolsThenPads(gs, PadCount(|bytes|), a);
  }

  /** Decoding what the encoder wrote gives the bytes back. */
  lemma RoundTrip(bytes: seq<bv8>, a: Alphabet)
    requires WellFormed(a)
    ensures EncodeSpec(bytes, a).Success?
    ensures DecodeSpec(EncodeSpec(bytes, a).value, a) == Success(bytes)
  {
    var gs := Groups(bytes);
    ToCharsSucceeds(gs, a);
    if a.pad != NoPad {
      RoundTripPadded(bytes, a);
      assert EncodeSpec(bytes, a).value == ToChars(gs, a).value + Pads(a.pad, PadCount(|bytes|));
    } else {
      RoundTripUnpadded(bytes, a);
      assert EncodeSpec(bytes, a).value == ToChars(gs, a).value + [];
      assert ToChars(gs, a).value + [] == ToChars(gs, a).value;
    }
  }

  /** The same without the trailing padding characters. */
  lemma RoundTripUnpadded(bytes: seq<bv8>, a: Alphabet)
    requires WellFormed(a)
    ensures ToChars(Groups(bytes), a).Success?
    ensures DecodeSpec(ToChars(Groups(bytes), a).value, a) == Success(bytes)
  {
    ScanSymbols(Groups(bytes), a);
    OctetsOfGroups(bytes);
  }

  /** Under the default alphabet, decoding the encoder's output, with or
      without its trailing padding characters, gives the bytes back. */
  lemma RoundTripRfc(bytes: seq<bv8>)
    ensures EncodeSpec(bytes, Rfc()).Success?
    ensures DecodeSpec(EncodeSpec(bytes, Rfc()).value, Rfc()) == Success(bytes)
    ensures ToChars(Groups(bytes), Rfc()).Success?
    ensures DecodeSpec(ToChars(Groups(bytes), Rfc()).value, Rfc()) == Success(bytes)
  {
    RfcWellFormed();
    RoundTrip(bytes, Rfc());
    RoundTripUnpadded(bytes, Rfc());
  }

  /* ---------------------------------------------------------------------- */
  /* Ignorable characters                                                    */
  /* ---------------------------------------------------------------------- */

  /** A character the decoder skips: ignored and not the padding character
      (the padding test comes first). */
  predicate Skipped(a: Alphabet, c: char) {
    !IsPad(a, c) && a.ignore(c)
  }

  /** The string without its skipped characters. */
  function Strip(s: string, a: Alphabet): (r: string)
    ensures |r| <= |s|
    decreases |s|
  {
    if s == [] then []
    else
      var init := Strip(s[..|s| - 1], a);
      if Skipped(a, s[|s| - 1]) then init else init + [s[|s| - 1]]
  }

  /** An error with its position forgotten. */
  function Unplaced(e: DecodeError): DecodeError {
    match e
    case InvalidSymbol(c, _) => InvalidSymbol(c, 0)
    case UnexpectedAfterPadding(c, _) => UnexpectedAfterPadding(c, 0)
    case MalformedPadding(n) => MalformedPadding(n)
  }

  /** A result with the position of its error forgotten. */
  function Unplace<T>(r: Result<T, DecodeError>): Result<T, DecodeError> {
    match r
    case Success(v) => Success(v)
    case Failure(e) => Failure(Unplaced(e))
  }

  lemma StepUnplaced(st: Scanned, c: char, i: nat, j: nat, a: Alphabet)
    ensures Unplace(Step(st, c, i, a)) == Unplace(Step(st, c, j, a))
  {
  }

  /** A skipped character leaves the decoder's state as it is. */
  lemma ScanSkip(s: string, a: Alphabet)
    requires s != [] && Skipped(a, s[|s| - 1])
    ensures Scan(s, a) == Scan(s[..|s| - 1], a)
  {
  }

  /** Dropping the skipped characters changes nothing but error positions. */
  lemma {:induction false} ScanStrip(s: string, a: Alphabet)
    ensures Unplace(Scan(Strip(s, a), a)) == Unplace(Scan(s, a))
    decreases |s|
  {
    if s != [] {
      var init := s[..|s| - 1];
      var c := s[|s| - 1];
      ScanStrip(init, a);
      if Skipped(a, c) {
        ScanSkip(s, a);
      } else {
        var t := Strip(s, a);
        assert t == Strip(init, a) + [c];
        assert t[..|t| - 1] == Strip(init, a);
        if Scan(init, a).Success? {
          StepUnplaced(Scan(init, a).value, c, |t| - 1, |s| - 1, a);
        }
      }
    }
  }

  /** Dropping the skipped characters changes the decoder's result only in
      the position an error reports. */
  lemma DecodeStrip(s: string, a: Alphabet)
    ensures Unplace(DecodeSpec(Strip(s, a), a)) == Unplace(DecodeSpec(s, a))
  {
    ScanStrip(s, a);
  }

  lemma {:induction false} StripAppend(s: string, t: string, a: Alphabet)
    ensures Strip(s + t, a) == Strip(s, a) + Strip(t, a)
    decreases |t|
  {
    if t == [] {
      assert s + t == s;
    } else {
      var init := t[..|t| - 1];
      StripAppend(s, init, a);
      assert (s + t)[..|s + t| - 1] == s + init;
    }
  }

  /** Inserting a skipped character anywhere changes the decoder's result only
      in the position an error reports. */
  lemma InsertSkipped(s: string, i: nat, c: char, a: Alphabet)
    requires i <= |s| && Skipped(a, c)
    ensures Unplace(DecodeSpec(s[..i] + [c] + s[i..], a)) == Unplace(DecodeSpec(s, a))
  {
    StripAppend(s[..i] + [c], s[i..], a);
    StripAppend(s[..i], [c], a);
    StripAppend(s[..i], s[i..], a);
    assert Strip([c], a) == [];
    assert s[..i] + s[i..] == s;
    DecodeStrip(s[..i] + [c] + s[i..], a);
    DecodeStrip(s, a);
  }

  /* ---------------------------------------------------------------------- */
  /* Errors                                                                  */
  /* ---------------------------------------------------------------------- */

  /** After the first padding character, any character that is neither padding
      nor ignored is rejected as unexpected, even one that is not a symbol. */
  lemma AfterPaddingFails(s: string, i: nat, a: Alphabet)
    requires i < |s| && Scan(s[..i], a).Success? && Scan(s[..i], a).value.padding > 0
    requires !IsPad(a, s[i]) && !a.ignore(s[i])
    ensures DecodeSpec(s, a) == Failure(UnexpectedAfterPadding(s[i], i))
  {
    ScanStep(s, i, a);
    ScanFailurePersists(s, i + 1, a);
  }

  /** Before any padding, a character that is neither padding, ignored nor a
      symbol is rejected as invalid. */
  lemma InvalidSymbolFails(s: string, i: nat, a: Alphabet)
    requires i < |s| && Scan(s[..i], a).Success? && Scan(s[..i], a).value.padding == 0
    requires !IsPad(a, s[i]) && !a.ignore(s[i]) && a.toIndex(s[i]).None?
    ensures DecodeSpec(s, a) == Failure(InvalidSymbol(s[i], i))
  {
    ScanStep(s, i, a);
    ScanFailurePersists(s, i + 1, a);
  }

  /** Conversely, the errors report the first offending character: it is at
      the reported position, the string before it reads without error, and it
      is what the error says it is. */
  lemma {:induction false} ScanErrorPlaced(s: string, a: Alphabet)
    requires Scan(s, a).Failure?
    ensures var e := Scan(s, a).error;
      && !e.MalformedPadding?
      && e.index < |s| && s[e.index] == e.symbol
      && Scan(s[..e.index], a).Success?
      && !IsPad(a, e.symbol) && !a.ignore(e.symbol)
      && (e.UnexpectedAfterPadding? ==> Scan(s[..e.index], a).value.padding > 0)
      && (e.InvalidSymbol? ==> Scan(s[..e.index], a).value.padding == 0 && a.toIndex(e.symbol).None?)
    decreases |s|
  {
    var init := s[..|s| - 1];
    if Scan(init, a).Failure? {
      ScanErrorPlaced(init, a);
      var e := Scan(init, a).error;
      assert s[..e.index] == init[..e.index];
    } else {
      assert s[..|s| - 1] == init;
    }
  }

  /* ---------------------------------------------------------------------- */
  /* Lengths                                                                 */
  /* ---------------------------------------------------------------------- */

  /** The number of characters that are neither padding nor ignored. */
  function DataCount(s: string, a: Alphabet): (n: nat)
    ensures n <= |s|
    decreases |s|
  {
    if s == [] then 0
    else DataCount(s[..|s| - 1], a) + if IsPad(a, s[|s| - 1]) || a.ignore(s[|s| - 1]) then 0 else 1
  }

  /** A string that reads without error has one value per data character. */
  lemma {:induction false} ScanCounts(s: string, a: Alphabet)
    requires Scan(s, a).Success?
    ensures |Scan(s, a).value.values| == DataCount(s, a)
    decreases |s|
  {
    if s != [] {
      ScanCounts(s[..|s| - 1], a);
    }
  }

  /** The bytes made of `c` values fit the decoder's buffer for a string of
      `len >= c` characters: 5 bytes per started block of 8 characters. */
  lemma ByteCountFits(c: nat, len: nat)
    requires c <= len
    ensures ByteCount(c) <= (len + 7) / 8 * 5
  {
    var q, r := c / 8, c % 8;
    assert c == 8 * q + r;
    assert 5 * c == 8 * (5 * q) + 5 * r;
    assert 5 * c / 8 == 5 * q + 5 * r / 8;
    assert (c + 7) / 8 <= (len + 7) / 8;
    if r == 0 {
      assert (c + 7) / 8 == q;
    } else {
      assert (c + 7) / 8 == q + 1;
    }
  }

  /** The decoder's output: floor(5c/8) bytes for c data characters, one more
      when 5 to 7 bits are left over, and never more than the buffer it
      allocates; the empty string decodes to no bytes. */
  lemma DecodeLength(s: string, a: Alphabet)
    requires DecodeSpec(s, a).Success?
    ensures |DecodeSpec(s, a).value| == ByteCount(DataCount(s, a))
    ensures |DecodeSpec(s, a).value| <= (|s| + 7) / 8 * 5
    ensures s == [] ==> DecodeSpec(s, a).value == []
  {
    ScanCounts(s, a);
    ByteCountFits(DataCount(s, a), |s|);
  }

  /** A lone symbol decodes to one byte holding its 5 bits: the final partial
      byte is written when it holds 5 to 7 bits, although an encoder never
      leaves more than 4. */
  lemma LoneSymbol(c: char, a: Alphabet)
    requires a.toIndex(c).Some? && !IsPad(a, c) && !a.ignore(c)
    ensures DecodeSpec([c], a) == Success([(a.toIndex(c).value as bv8) << 3])
  {
    var v := a.toIndex(c).value as bv5;
    assert [c][..0] == [];
    assert Step(Scanned([], 0), c, 0, a) == Success(Scanned([] + [v], 0));
    assert [] + [v] == [v];
    assert Scan([c], a) == Success(Scanned([v], 0));
    var x := OctetAt([v], 0);
    var y := (a.toIndex(c).value as bv8) << 3;
    assert y == ((v as bv8) << 3) >> 0;
    forall t | 0 <= t < 8 ensures ByteBit(x, t) == ByteBit(y, t) {
      OctetAtBit([v], 0, t);
      ShiftedBit(v, 0, t);
      if t < 5 {
        ValuesBitAt([v], 0, t);
      } else {
        ValuesBitPastEnd([v], t);
      }
    }
    ByteExt(x, y);
    assert ByteCount(1) == 1;
    assert Octets([v]) == [x];
  }
}
