# base32check-java in Dafny

A model of the core of base32check-java, a Java library with three parts:

- **Alphabets.** An alphabet has four operations: `toChar`, `toIndex`, `ignore` and `pad`. `CharIndicesLookup` is the dense table that maps symbols back to indices. The default alphabet follows section 6 of RFC 4648:
  - symbols "A".."Z" then "2".."7";
  - "=" as the padding character;
  - whitespace is ignored.
- **The base 32 codec.**
  - `bitsAtOffset` selects five bits across a byte boundary.
  - The encoder writes one symbol per 5-bit group, then padding.
  - The decoder makes one pass with a one-byte bit buffer. It skips ignorable characters. It rejects data after padding and rejects invalid symbols. It checks the padding count.
- **The Base32Check1 check character.** This is a weighted XOR sum over GF(2^5):
  - the weights are powers of a primitive element, given as a 5x5 matrix over GF(2);
  - `matMul` multiplies a row vector by such a matrix;
  - `compute` and `validate` work on a payload.

## How it is modelled

- Errors are results, not exceptions:
  - `toChar` and `toIndex` return `None` where the original throws;
  - encoding, decoding and the check character return a `Result` whose error names what the Java exception message names:
    - a decoding error on a character (`InvalidSymbol`, `UnexpectedAfterPadding`) carries the character and its index;
    - `MalformedPadding` carries the expected number of padding characters;
    - an encoding error (`UnsupportedIndex`) carries the 5-bit value that has no symbol;
    - the check character's `NotASymbol` carries the character (without its index), and `NoSymbolFor` the value that has no symbol.
- Bytes are unsigned `bv8`. The original's bytes are signed, but its masks remove the sign-extension bits.
- 5-bit values are `bv5` in the codec. The GF(2) arithmetic works on `nat` with a bitwise `Xor`, and the proofs show every value stays below 32.
- Each loop of the original is a `method`: `Encode`, `Decode`, `GetPrimitivePowers` and `ComputeLoop`.
  - Each is proved equal to a reference function.
  - For the codec, the reference is the big-endian bit string of the bytes, cut into 5-bit groups (module `BitString`).
- The check character is defined for any table of powers (`ComputeWith`). The properties hold for every table that behaves like the powers of an element of order 31 (`CyclicTable`).
  - The default primitive is shown to be such an element: its 31st power is computed and is the identity.
  - The powers are computed on 5-bit vectors, which agree bit by bit with the matrix rows (`Agrees`).
- The check-character vectors of the test table are proved one by one (modules `Check1Vectors` and `Check1Table`):
  - the weighted sum of each payload is built up on 5-bit vectors, two symbols at a time, and each piece is reused by the longer payloads that share it as a prefix;
  - `Check1Vectors.CheckOf` turns a sum into the three facts the tests assert: the computed check character, that the payload followed by it validates, and that the payload alone validates exactly when that character is "A".
- The specification describes the decoder as ignoring hyphens. The code does not, and the default alphabet ignores only whitespace, so the model follows the code.

## Model

| member | source | states |
|---|---|---|
| Alphabets.MinOf | src/main/java/de/bitmarck/bms/base32/alphabet/Base32Alphabet.java:38 | `Collections.min`: the result is a key and no key is smaller |
| Alphabets.MaxOf | src/main/java/de/bitmarck/bms/base32/alphabet/Base32Alphabet.java:39 | `Collections.max`: the result is a key and no key is larger |
| Alphabets.NewLookup | src/main/java/de/bitmarck/bms/base32/alphabet/Base32Alphabet.java:36-45 | the constructor fails exactly on an empty map; otherwise the table starts at a key, covers every key, and its last slot is a key |
| Alphabets.LookupShape | src/main/java/de/bitmarck/bms/base32/alphabet/Base32Alphabet.java:36-45 | the table has `max - min + 1` slots; slot `c - min` holds the map's entry for `c`, or -1 when `c` is not a key |
| Alphabets.GetIndex | src/main/java/de/bitmarck/bms/base32/alphabet/Base32Alphabet.java:47-54 | a successful lookup is never negative |
| Alphabets.LookupAgrees | src/main/java/de/bitmarck/bms/base32/alphabet/Base32Alphabet.java:47-54 | `getIndex(c)` returns `map[c]` exactly for keys with a non-negative entry; it throws for every other character |
| Alphabets.LookupRejects | src/main/java/de/bitmarck/bms/base32/alphabet/Base32Alphabet.java:48-53 | characters below `min`, above `max`, in gaps or with negative entries are rejected |
| Rfc4648.SymbolsSpelled | src/main/java/de/bitmarck/bms/base32/alphabet/Base32RFC4648.java:11 | the 32 symbols are "A".."Z" then "2".."7", in that order |
| Rfc4648.IndexMapIsIndexFor | src/main/java/de/bitmarck/bms/base32/alphabet/Base32RFC4648.java:12-16 | the map built by `toMap` has exactly the 32 symbols as keys, each mapped to its position |
| Rfc4648.LookupSpan | src/main/java/de/bitmarck/bms/base32/alphabet/Base32RFC4648.java:12-16 | the default table starts at "2" and has 41 slots; exactly the gap "8".."@" holds -1 |
| Rfc4648.LookupSlot | src/main/java/de/bitmarck/bms/base32/alphabet/Base32RFC4648.java:12-16 | slot `i` of the default table holds the index of the character `'2' + i`, or -1 if it is not a symbol |
| Rfc4648.IndexMapRange | src/main/java/de/bitmarck/bms/base32/alphabet/Base32RFC4648.java:12-16 | the smallest key is "2" and the largest is "Z" |
| Rfc4648.ToChar | src/main/java/de/bitmarck/bms/base32/alphabet/Base32RFC4648.java:28-30 | `toChar(i)` is defined exactly for `0 <= i < 32` |
| Rfc4648.ToCharIsSymbolFor | src/main/java/de/bitmarck/bms/base32/alphabet/Base32RFC4648.java:28-30 | `toChar(i)` is "A".."Z" for 0..25 and "2".."7" for 26..31, and fails elsewhere |
| Rfc4648.LookupIsIndexFor | src/main/java/de/bitmarck/bms/base32/alphabet/Base32RFC4648.java:33-35 | the table lookup finds exactly the symbols, at their positions |
| Rfc4648.ToIndexIsIndexFor | src/main/java/de/bitmarck/bms/base32/alphabet/Base32RFC4648.java:33-35 | `toIndex` accepts exactly "A".."Z" and "2".."7", mapping them to 0..25 and 26..31 |
| Rfc4648.ToIndexToChar | src/main/java/de/bitmarck/bms/base32/alphabet/Base32RFC4648.java:28-35 | `toIndex(toChar(i)) == i` for every `i` in [0,32) |
| Rfc4648.RejectsNonSymbols | src/main/java/de/bitmarck/bms/base32/alphabet/Base32RFC4648.java:33-35 | lower-case letters, "0", "1", "8", "9" and "=" are rejected |
| Rfc4648.PadIsNotSymbol | src/main/java/de/bitmarck/bms/base32/alphabet/Base32RFC4648.java:43-45 | the padding character "=" is not a symbol |
| Rfc4648.IgnoreSparesSymbols | src/main/java/de/bitmarck/bms/base32/alphabet/Base32RFC4648.java:38-40 | whitespace never includes a symbol or "=" |
| Rfc4648.RfcSymbolsRead | src/main/java/de/bitmarck/bms/base32/alphabet/Base32RFC4648.java:27-35 | the default alphabet has a symbol exactly for 0 to 31 and reads each symbol back as its index |
| Rfc4648.RfcIndicesSpelled | src/main/java/de/bitmarck/bms/base32/alphabet/Base32RFC4648.java:27-40 | the default alphabet spells each index it reads back as the character it was read from, and ignores none of its symbols |
| Rfc4648.RfcWellFormed | src/main/java/de/bitmarck/bms/base32/alphabet/Base32RFC4648.java:27-45 | the default alphabet keeps the contract: `toChar` and `toIndex` are inverse on [0,32), symbols and "=" are never ignored, "=" is not a symbol |
| BitString.OctetsOfGroups | src/main/java/de/bitmarck/bms/base32/Base32.java:105-120 | packing the 5-bit groups of some bytes back into bytes gives those bytes |
| BitString.ByteCountOfGroupCount | src/main/java/de/bitmarck/bms/base32/Base32.java:118-120 | the groups of `n` bytes leave at most 4 bits, so the decoder makes exactly `n` bytes of them |
| Base32.BitsAtOffset | src/main/java/de/bitmarck/bms/base32/Base32.java:13-15 | the result is 0 when the bit index is past the last byte |
| Base32.BitsAtOffsetIsGroup | src/main/java/de/bitmarck/bms/base32/Base32.java:13-28 | five bits at bit `b` are bits `b`..`b+4` of the big-endian bit string, bits past the end reading as 0 |
| Base32.SelectFive | src/main/java/de/bitmarck/bms/base32/Base32.java:17-27 | at every offset in a byte, the mask-and-shift arithmetic selects the five window bits from that offset on |
| Base32.GroupCountByOffset | src/main/java/de/bitmarck/bms/base32/Base32.java:48 | the encoder's loop condition holds exactly while groups remain |
| Base32.ToChars | src/main/java/de/bitmarck/bms/base32/Base32.java:47-52 | the encoder's symbols succeed exactly when every 5-bit value has a symbol, and then character `i` is the symbol of value `i` |
| Base32.ToCharsFailurePersists | src/main/java/de/bitmarck/bms/base32/Base32.java:47-52 | the first value without a symbol is the encoder's error |
| Base32.AppendPadding | src/main/java/de/bitmarck/bms/base32/Base32.java:55-62 | the padding loop appends exactly `n` padding characters |
| Base32.Encode | src/main/java/de/bitmarck/bms/base32/Base32.java:39-65 | the encoder writes the symbol of each 5-bit group, then `padLen` padding characters when the alphabet pads |
| Base32.ScanFailurePersists | src/main/java/de/bitmarck/bms/base32/Base32.java:86-116 | the first error ends the decoder's scan |
| Base32.Absorb | src/main/java/de/bitmarck/bms/base32/Base32.java:105 | or-ing a value into the partial byte at bit `bidx` gives the byte of the extended bit string |
| Base32.CarryOver | src/main/java/de/bitmarck/bms/base32/Base32.java:108-112 | the bits of a value that do not fit start the next byte correctly |
| Base32.FeedHolds | src/main/java/de/bitmarck/bms/base32/Base32.java:105-112 | the bit buffer always holds the completed bytes and the partial byte of the values read |
| Base32.FlushIsOctets | src/main/java/de/bitmarck/bms/base32/Base32.java:118-120 | the final flush gives the bytes of the values read, the partial byte only when it holds 5 to 7 bits |
| Base32.Decode | src/main/java/de/bitmarck/bms/base32/Base32.java:78-134 | the decoder returns the bytes of the symbols read, or the first error, or the padding error |
| CodecLaws.EncodeSucceeds | src/main/java/de/bitmarck/bms/base32/Base32.java:47-62 | for a well-formed alphabet the encoder never fails; it writes ceil(8n/5) symbols of the groups' values, then padding up to a multiple of 8 |
| CodecLaws.PadCountByRemainder | src/main/java/de/bitmarck/bms/base32/Base32.java:56 | `padLen` is 0, 6, 4, 3 or 1 for `n % 5` = 0, 1, 2, 3, 4 |
| CodecLaws.EncodedLength | src/main/java/de/bitmarck/bms/base32/Base32.java:44 | symbols plus padding fill exactly the allocated `(n + 4) / 5 * 8` characters |
| CodecLaws.ScanSymbols | src/main/java/de/bitmarck/bms/base32/Base32.java:98-112 | a string of symbols reads back as their values |
| CodecLaws.ScanPads | src/main/java/de/bitmarck/bms/base32/Base32.java:89-90 | padding characters are only counted |
| CodecLaws.SymbolsThenPads | src/main/java/de/bitmarck/bms/base32/Base32.java:126-131 | symbols followed by `k` padding characters decode when `k` is 0 or the count the encoder writes, and otherwise fail with the padding error |
| CodecLaws.RoundTripPadded | src/main/java/de/bitmarck/bms/base32/Base32.java:78-134 | symbols plus padding as written by the encoder decode to the bytes |
| CodecLaws.RoundTrip | src/main/java/de/bitmarck/bms/base32/Base32.java:39-134 | `decode(encode(b)) == b` for every well-formed alphabet |
| CodecLaws.RoundTripUnpadded | src/main/java/de/bitmarck/bms/base32/Base32.java:39-134 | the round trip also holds with the padding dropped |
| CodecLaws.RoundTripRfc | src/main/java/de/bitmarck/bms/base32/Base32.java:30-69 | both round trips hold under the default alphabet |
| CodecLaws.StepUnplaced | src/main/java/de/bitmarck/bms/base32/Base32.java:86-116 | the result of reading one character depends on its position only through error positions |
| CodecLaws.ScanSkip | src/main/java/de/bitmarck/bms/base32/Base32.java:89-91 | a skipped character leaves the decoder's state unchanged |
| CodecLaws.ScanStrip | src/main/java/de/bitmarck/bms/base32/Base32.java:86-116 | removing all skipped characters changes the scan only in error positions |
| CodecLaws.DecodeStrip | src/main/java/de/bitmarck/bms/base32/Base32.java:89-91 | removing ignorable characters, also after padding, changes the decoder's result only in error positions |
| CodecLaws.InsertSkipped | src/main/java/de/bitmarck/bms/base32/Base32.java:89-91 | inserting an ignorable character anywhere changes the decoder's result only in error positions |
| CodecLaws.AfterPaddingFails | src/main/java/de/bitmarck/bms/base32/Base32.java:92-96 | after the first padding character, any data character fails as unexpected, even one that is not a symbol |
| CodecLaws.InvalidSymbolFails | src/main/java/de/bitmarck/bms/base32/Base32.java:98-103 | before padding, a character that is not a symbol fails as invalid at its index |
| CodecLaws.ScanErrorPlaced | src/main/java/de/bitmarck/bms/base32/Base32.java:92-103 | every scan error names the first offending character and its index; the text before it reads cleanly; the error kind matches the padding state |
| CodecLaws.ScanCounts | src/main/java/de/bitmarck/bms/base32/Base32.java:86-116 | a clean scan reads one value per data character |
| CodecLaws.ByteCountFits | src/main/java/de/bitmarck/bms/base32/Base32.java:85 | the bytes of `c <= len` values fit the allocated `(len + 7) / 8 * 5` bytes |
| CodecLaws.DecodeLength | src/main/java/de/bitmarck/bms/base32/Base32.java:105-120 | the output has floor(5c/8) bytes for `c` data characters, plus one when 5 to 7 bits remain; it fits the buffer; "" decodes to no bytes |
| CodecLaws.LoneSymbol | src/main/java/de/bitmarck/bms/base32/Base32.java:118-120 | a lone symbol decodes to one byte holding its 5 bits, although an encoder never leaves more than 4 bits over |
| GfMatrix.XorBit | src/main/java/de/bitmarck/bms/base32/Base32Check1.java:50 | bit `s` of `a ^ b` is set when exactly one of `a` and `b` has it |
| GfMatrix.XorBelow | src/main/java/de/bitmarck/bms/base32/Base32Check1.java:50 | XOR of two values below `2^k` stays below `2^k` |
| GfMatrix.RowTimesBit | src/main/java/de/bitmarck/bms/base32/Base32Check1.java:46-53 | bit `s` of `x * b` is the parity of bit `s` of the rows `j` that bit `4 - j` of `x` selects |
| GfMatrix.RowTimesBound | src/main/java/de/bitmarck/bms/base32/Base32Check1.java:44-56 | a product stays below 32 when every row of the matrix does |
| GfMatrix.MatMulBound | src/main/java/de/bitmarck/bms/base32/Base32Check1.java:44-56 | a matrix product has rows below 32 when the right factor does |
| GfMatrix.RowTimesLinear | src/main/java/de/bitmarck/bms/base32/Base32Check1.java:44-56 | `matMul` is XOR-linear in the row vector |
| GfMatrix.RowTimesZero | src/main/java/de/bitmarck/bms/base32/Base32Check1.java:44-56 | `matMul` maps the zero vector to zero |
| GfMatrix.RowTimesAssoc | src/main/java/de/bitmarck/bms/base32/Base32Check1.java:44-56 | `(x * a) * b == x * (a * b)` |
| GfMatrix.MatMulAssoc | src/main/java/de/bitmarck/bms/base32/Base32Check1.java:44-56 | the matrix product is associative |
| GfMatrix.RowTimesIdentity | src/main/java/de/bitmarck/bms/base32/Base32Check1.java:44-56 | the identity matrix maps every element to itself |
| GfMatrix.MatMulAgrees | src/main/java/de/bitmarck/bms/base32/Base32Check1.java:44-56 | the product computed on 5-bit vectors agrees bit by bit with the product on rows |
| GfMatrix.MatrixAgreesEqual | src/main/java/de/bitmarck/bms/base32/Base32Check1.java:44-56 | two matrices that agree with the same 5-bit matrix are equal |
| Check1.GetPrimitivePowers | src/main/java/de/bitmarck/bms/base32/Base32Check1.java:26-42 | the construction puts `P^k` in slot `k` for 1..30 and `P^31` in slot 0 |
| Check1.PowerTableRecurrence | src/main/java/de/bitmarck/bms/base32/Base32Check1.java:26-42 | slot 1 is `P`, slot `k` is slot `k-1` times `P` for 2..30, and slot 0 is slot 30 times `P` |
| Check1.PowerAdd | src/main/java/de/bitmarck/bms/base32/Base32Check1.java:26-42 | `P^a * P^b == P^(a+b)` |
| Check1.PowerBound | src/main/java/de/bitmarck/bms/base32/Base32Check1.java:26-42 | every power of a matrix with rows below 32 has rows below 32 |
| Check1.PowerAgrees | src/main/java/de/bitmarck/bms/base32/Base32Check1.java:14-42 | the powers of the default primitive agree with their 5-bit computation |
| Check1.PowerBvCycle | src/main/java/de/bitmarck/bms/base32/Base32Check1.java:14-20 | on 5-bit vectors, the 31st power of the default primitive is the identity |
| Check1.SlotAgrees | src/main/java/de/bitmarck/bms/base32/Base32Check1.java:14-42 | every slot of the default table agrees bit by bit with its spelled-out 5-bit matrix |
| Check1.PrimitiveOrder | src/main/java/de/bitmarck/bms/base32/Base32Check1.java:14-20 | the default primitive has order 31: `P^31` is the identity |
| Check1.SlotShift | src/main/java/de/bitmarck/bms/base32/Base32Check1.java:26-42 | for a primitive of order 31, multiplying by slots `i` and `j` is multiplying by slot `(i + j) % 31` |
| Check1.PowerTableCyclic | src/main/java/de/bitmarck/bms/base32/Base32Check1.java:26-42 | the table of any primitive of order 31 is cyclic |
| Check1.PowersCyclic | src/main/java/de/bitmarck/bms/base32/Base32Check1.java:14-42 | the table of the default instance is cyclic |
| Check1.JavaRem | src/main/java/de/bitmarck/bms/base32/Base32Check1.java:71 | Java's `%`: the remainder of the quotient rounded toward zero (`(a / b) * b + a % b == a` with Java's `/`), strictly between `-b` and `b`, non-negative for a non-negative dividend and non-positive for a negative one |
| Check1.Exponent | src/main/java/de/bitmarck/bms/base32/Base32Check1.java:71-74 | `exp` lies in [0,31), so it is a valid slot of the table |
| Check1.ExponentCancels | src/main/java/de/bitmarck/bms/base32/Base32Check1.java:66-74 | the final exponent and the weight slot of the check character add up to a multiple of 31 |
| Check1.ComputeLoop | src/main/java/de/bitmarck/bms/base32/Base32Check1.java:62-77 | the loop computes the weighted sum times `P^exp`, mapped to a symbol, or fails at the first non-symbol |
| Check1.SumFailurePersists | src/main/java/de/bitmarck/bms/base32/Base32Check1.java:66-68 | the first character that is not a symbol decides the error |
| Check1.WeightedSumDefined | src/main/java/de/bitmarck/bms/base32/Base32Check1.java:66-68 | the sum exists exactly when every character is a symbol, and it stays below 32 |
| Check1.ComputeDefined | src/main/java/de/bitmarck/bms/base32/Base32Check1.java:62-77 | for a well-formed alphabet, `compute` succeeds exactly on strings of symbols; whitespace is not ignored and no `toChar` call is out of range |
| Check1.ComputeRejects | src/main/java/de/bitmarck/bms/base32/Base32Check1.java:66-68 | the first character that is not a symbol is the one reported |
| Check1.CheckCancels | src/main/java/de/bitmarck/bms/base32/Base32Check1.java:62-77 | appending the check character makes the weighted sum 0 |
| Check1.ValidateIsCheckA | src/main/java/de/bitmarck/bms/base32/Base32Check1.java:83-85 | `validate(s)` holds exactly when `compute(s)` is the literal "A" |
| Check1.ValidateIntendedOwnCheck | src/main/java/de/bitmarck/bms/base32/Base32Check1.java:62-85 | with the comparison against the alphabet's symbol for 0, a payload followed by its check character validates, for every well-formed alphabet and every length |
| Check1.ValidateRejectsOwnCheck | src/main/java/de/bitmarck/bms/base32/Base32Check1.java:83-85 | as written, a payload followed by its check character fails to validate under every well-formed alphabet whose symbol for 0 is not "A" |
| Check1.ValidateOwnCheckRfc | src/main/java/de/bitmarck/bms/base32/Base32Check1.java:62-85 | under the default alphabet, `validate(s + compute(s))` holds for every string of symbols, lengths that are multiples of 31 included |
| Check1.RotatedDomain | src/main/java/de/bitmarck/bms/base32/alphabet/Base32Alphabet.java:8-13 | the rotated alphabet has a symbol exactly for 0 to 31 |
| Check1.RotatedSymbolsRead | src/main/java/de/bitmarck/bms/base32/alphabet/Base32Alphabet.java:8-20 | the rotated alphabet reads each of its symbols back as its index |
| Check1.RotatedIndicesSpelled | src/main/java/de/bitmarck/bms/base32/alphabet/Base32Alphabet.java:8-20 | the rotated alphabet spells each index it reads back as the character it was read from |
| Check1.RotatedSymbolsKept | src/main/java/de/bitmarck/bms/base32/alphabet/Base32Alphabet.java:15-25 | the rotated alphabet ignores none of its symbols |
| Check1.RotatedPadApart | src/main/java/de/bitmarck/bms/base32/alphabet/Base32Alphabet.java:22-30 | the rotated alphabet's padding "=" is neither a symbol nor ignored |
| Check1.RotatedWellFormed | src/main/java/de/bitmarck/bms/base32/alphabet/Base32Alphabet.java:8-30 | the alphabet of the default symbols rotated by one keeps the alphabet contract |
| Check1.RotatedRejectsOwnCheck | src/main/java/de/bitmarck/bms/base32/Base32Check1.java:83-85 | under that alphabet the check character of "" is "B", and "B" fails to validate as written but validates as intended |
| Check1Vectors.SlotAtAgrees | src/main/java/de/bitmarck/bms/base32/Base32Check1.java:68 | the weight of position `n` is table slot `n % 31`, and it agrees with the spelled-out 5-bit slot |
| Check1Vectors.StepAgrees | src/main/java/de/bitmarck/bms/base32/Base32Check1.java:66-69 | one step of the sum loop on 5-bit vectors agrees with the step on rows |
| Check1Vectors.PushSymbol | src/main/java/de/bitmarck/bms/base32/Base32Check1.java:66-69 | appending a symbol of value `x` at position `n + 1` adds `x` times slot `n + 1` to the weighted sum |
| Check1Vectors.RunStep | src/main/java/de/bitmarck/bms/base32/Base32Check1.java:66-69 | one recorded symbol of a run advances the weighted sum of the payload read so far |
| Check1Vectors.RunAgrees | src/main/java/de/bitmarck/bms/base32/Base32Check1.java:62-69 | a run that records the rest of a payload gives the weighted sum of the whole payload |
| Check1Vectors.RunAppends | src/main/java/de/bitmarck/bms/base32/Base32Check1.java:62-69 | appending a recorded piece of `m` symbols to `n` symbols takes the weighted sum from the recorded start to the recorded end |
| Check1Vectors.SumTimesSlot | src/main/java/de/bitmarck/bms/base32/Base32Check1.java:71-76 | a payload whose sum agrees with a 5-bit vector consists of symbols, and its sum times the final slot is the 5-bit product |
| Check1Vectors.ComputesTo | src/main/java/de/bitmarck/bms/base32/Base32Check1.java:62-77 | a payload of `n` symbols whose sum agrees with `sum` has as check character the symbol of `sum` times slot `Exponent(n)` |
| Check1Vectors.CheckOf | src/main/java/de/bitmarck/bms/base32/Base32Check1.java:62-85 | for such a payload the check character is computed, the payload followed by it validates, and the payload alone validates exactly when it is "A" |
| Check1Table.Alphabet0 | src/test/java/de/bitmarck/bms/base32/Base32Check1Spec.java:21 | the check character of the empty payload is "A"; it validates followed by it, and validates alone, its check character being "A" |
| Check1Table.Alphabet1 | src/test/java/de/bitmarck/bms/base32/Base32Check1Spec.java:22 | the check character of "A" is "A"; it validates followed by it, and validates alone, its check character being "A" |
| Check1Table.Alphabet2 | src/test/java/de/bitmarck/bms/base32/Base32Check1Spec.java:23 | the check character of "AB" is "Q"; it validates followed by it, and fails to validate alone |
| Check1Table.Alphabet3 | src/test/java/de/bitmarck/bms/base32/Base32Check1Spec.java:24 | the check character of "ABC" is "J"; it validates followed by it, and fails to validate alone |
| Check1Table.Alphabet4 | src/test/java/de/bitmarck/bms/base32/Base32Check1Spec.java:25 | the check character of "ABCD" is "V"; it validates followed by it, and fails to validate alone |
| Check1Table.Alphabet5 | src/test/java/de/bitmarck/bms/base32/Base32Check1Spec.java:26 | the check character of "ABCDE" is "I"; it validates followed by it, and fails to validate alone |
| Check1Table.Alphabet6 | src/test/java/de/bitmarck/bms/base32/Base32Check1Spec.java:27 | the check character of "ABCDEF" is "G"; it validates followed by it, and fails to validate alone |
| Check1Table.Alphabet7 | src/test/java/de/bitmarck/bms/base32/Base32Check1Spec.java:28 | the check character of "ABCDEFG" is "A"; it validates followed by it, and validates alone, its check character being "A" |
| Check1Table.Alphabet8 | src/test/java/de/bitmarck/bms/base32/Base32Check1Spec.java:29 | the check character of "ABCDEFGH" is "T"; it validates followed by it, and fails to validate alone |
| Check1Table.Alphabet9 | src/test/java/de/bitmarck/bms/base32/Base32Check1Spec.java:30 | the check character of "ABCDEFGHI" is "5"; it validates followed by it, and fails to validate alone |
| Check1Table.Alphabet10 | src/test/java/de/bitmarck/bms/base32/Base32Check1Spec.java:31 | the check character of "ABCDEFGHIJ" is "K"; it validates followed by it, and fails to validate alone |
| Check1Table.Alphabet11 | src/test/java/de/bitmarck/bms/base32/Base32Check1Spec.java:32 | the check character of "ABCDEFGHIJK" is "A"; it validates followed by it, and validates alone, its check character being "A" |
| Check1Table.Alphabet12 | src/test/java/de/bitmarck/bms/base32/Base32Check1Spec.java:33 | the check character of "ABCDEFGHIJKL" is "F"; it validates followed by it, and fails to validate alone |
| Check1Table.Alphabet13 | src/test/java/de/bitmarck/bms/base32/Base32Check1Spec.java:34 | the check character of "ABCDEFGHIJKLM" is "U"; it validates followed by it, and fails to validate alone |
| Check1Table.Alphabet14 | src/test/java/de/bitmarck/bms/base32/Base32Check1Spec.java:35 | the check character of "ABCDEFGHIJKLMN" is "M"; it validates followed by it, and fails to validate alone |
| Check1Table.Alphabet15 | src/test/java/de/bitmarck/bms/base32/Base32Check1Spec.java:36 | the check character of "ABCDEFGHIJKLMNO" is "R"; it validates followed by it, and fails to validate alone |
| Check1Table.Alphabet16 | src/test/java/de/bitmarck/bms/base32/Base32Check1Spec.java:37 | the check character of "ABCDEFGHIJKLMNOP" is "7"; it validates followed by it, and fails to validate alone |
| Check1Table.Alphabet17 | src/test/java/de/bitmarck/bms/base32/Base32Check1Spec.java:38 | the check character of "ABCDEFGHIJKLMNOPQ" is "X"; it validates followed by it, and fails to validate alone |
| Check1Table.Alphabet18 | src/test/java/de/bitmarck/bms/base32/Base32Check1Spec.java:39 | the check character of "ABCDEFGHIJKLMNOPQR" is "D"; it validates followed by it, and fails to validate alone |
| Check1Table.Alphabet19 | src/test/java/de/bitmarck/bms/base32/Base32Check1Spec.java:40 | the check character of "ABCDEFGHIJKLMNOPQRS" is "I"; it validates followed by it, and fails to validate alone |
| Check1Table.Alphabet20 | src/test/java/de/bitmarck/bms/base32/Base32Check1Spec.java:41 | the check character of "ABCDEFGHIJKLMNOPQRST" is "5"; it validates followed by it, and fails to validate alone |
| Check1Table.Alphabet21 | src/test/java/de/bitmarck/bms/base32/Base32Check1Spec.java:42 | the check character of "ABCDEFGHIJKLMNOPQRSTU" is "U"; it validates followed by it, and fails to validate alone |
| Check1Table.Alphabet22 | src/test/java/de/bitmarck/bms/base32/Base32Check1Spec.java:43 | the check character of "ABCDEFGHIJKLMNOPQRSTUV" is "Q"; it validates followed by it, and fails to validate alone |
| Check1Table.Alphabet23 | src/test/java/de/bitmarck/bms/base32/Base32Check1Spec.java:44 | the check character of "ABCDEFGHIJKLMNOPQRSTUVW" is "D"; it validates followed by it, and fails to validate alone |
| Check1Table.Alphabet24 | src/test/java/de/bitmarck/bms/base32/Base32Check1Spec.java:45 | the check character of "ABCDEFGHIJKLMNOPQRSTUVWX" is "K"; it validates followed by it, and fails to validate alone |
| Check1Table.Alphabet25 | src/test/java/de/bitmarck/bms/base32/Base32Check1Spec.java:46 | the check character of "ABCDEFGHIJKLMNOPQRSTUVWXY" is "J"; it validates followed by it, and fails to validate alone |
| Check1Table.Alphabet26 | src/test/java/de/bitmarck/bms/base32/Base32Check1Spec.java:47 | the check character of "ABCDEFGHIJKLMNOPQRSTUVWXYZ" is "Y"; it validates followed by it, and fails to validate alone |
| Check1Table.Alphabet27 | src/test/java/de/bitmarck/bms/base32/Base32Check1Spec.java:48 | the check character of "ABCDEFGHIJKLMNOPQRSTUVWXYZ2" is "R"; it validates followed by it, and fails to validate alone |
| Check1Table.Alphabet28 | src/test/java/de/bitmarck/bms/base32/Base32Check1Spec.java:49 | the check character of "ABCDEFGHIJKLMNOPQRSTUVWXYZ23" is "V"; it validates followed by it, and fails to validate alone |
| Check1Table.Alphabet29 | src/test/java/de/bitmarck/bms/base32/Base32Check1Spec.java:50 | the check character of "ABCDEFGHIJKLMNOPQRSTUVWXYZ234" is "U"; it validates followed by it, and fails to validate alone |
| Check1Table.Alphabet30 | src/test/java/de/bitmarck/bms/base32/Base32Check1Spec.java:51 | the check character of "ABCDEFGHIJKLMNOPQRSTUVWXYZ2345" is "U"; it validates followed by it, and fails to validate alone |
| Check1Table.Alphabet31 | src/test/java/de/bitmarck/bms/base32/Base32Check1Spec.java:53 | the check character of "ABCDEFGHIJKLMNOPQRSTUVWXYZ23456" is "V"; it validates followed by it, and fails to validate alone |
| Check1Table.Alphabet32 | src/test/java/de/bitmarck/bms/base32/Base32Check1Spec.java:54 | the check character of "ABCDEFGHIJKLMNOPQRSTUVWXYZ234567" is "V"; it validates followed by it, and fails to validate alone |
| Check1Table.Alphabet62 | src/test/java/de/bitmarck/bms/base32/Base32Check1Spec.java:56 | the check character of the 62-character payload is "6"; it validates followed by it, and fails to validate alone |
| Check1Table.Alphabet93 | src/test/java/de/bitmarck/bms/base32/Base32Check1Spec.java:58 | the check character of the 93-character payload is "K"; it validates followed by it, and fails to validate alone |
| Check1Table.Consecratio | src/test/java/de/bitmarck/bms/base32/Base32Check1Spec.java:59 | the check character of "CONSECRATIO" is "X"; it validates followed by it, and fails to validate alone |
| Check1Table.CafeBabe | src/test/java/de/bitmarck/bms/base32/Base32Check1Spec.java:60 | the check character of "CAFEBABE" is "N"; it validates followed by it, and fails to validate alone |
| Check1Table.CafeDead | src/test/java/de/bitmarck/bms/base32/Base32Check1Spec.java:61 | the check character of "CAFEDEAD" is "A"; it validates followed by it, and validates alone, its check character being "A" |
| Check1Table.DeadBeef | src/test/java/de/bitmarck/bms/base32/Base32Check1Spec.java:62 | the check character of "DEADBEEF" is "L"; it validates followed by it, and fails to validate alone |
| Check1Table.Digits | src/test/java/de/bitmarck/bms/base32/Base32Check1Spec.java:63 | the check character of "234567" is "Z"; it validates followed by it, and fails to validate alone |

## Left out

- The `getInstance` singletons and the one-argument overloads of `encode`, `decode`, `compute` and `validate`. They only supply the default alphabet or instance, which the model names directly (`Rfc()`, `Powers`).
- Exception classes and message texts. Errors are `Result` values that carry the data the messages print.
- `CharBuffer` and `ByteBuffer` are sequences. Only their allocated capacities remain, as the bounds in `CodecLaws.EncodedLength` and `CodecLaws.DecodeLength`.
- `Character.isWhitespace` is a library call. It is written out as `Rfc4648.IsWhitespace` from its documented definition: Unicode space, line and paragraph separators except the no-break spaces, plus the listed control characters. It is not taken from the library. The definition is that of Java 9 and later (Unicode 6.3 and later); Java 7 and 8 also count U+180E MONGOLIAN VOWEL SEPARATOR as whitespace.
- Java strings are sequences of UTF-16 code units; here a string is a sequence of Unicode scalar values, so a character outside the Basic Multilingual Plane is one `char` where Java has two surrogate code units. The alphabets' symbols and whitespace all lie in the Basic Multilingual Plane, and any surrogate pair is rejected by them either way, but error positions after such a character differ by one.
- Dafny's `char` has no surrogate code points. A lookup table whose range spans surrogates reads -1 in those slots, as the Java table does for characters that are not keys.
- Alphabets whose `toIndex` returns a value outside [0,32). An index is a 5-bit value in the model, so an alphabet that breaks this part of the contract cannot be expressed.
- Base32Check1 with a primitive that is not 5x5: `Matrix` has five rows. `matMul` itself works for any size.
- Properties of `compute` for a primitive whose order is not 31. `ComputeWith` is defined for any table, but the cancellation lemmas require `CyclicTable`.
- Java integer widths. Integers are unbounded here. The encoder's `long` bit offset, the decoder's `int` counters and the checksum's `int`s (values below 32, `i + 1` and `30 - len` for `len` below 2^31) never overflow. The two buffer capacities can, and that is not modelled:
  - `encode` computes `(bytes.length + 4) / 5 * 8` in `int` (Base32.java:44). For 1,342,177,276 bytes or more this wraps to a negative number and `CharBuffer.allocate` throws `IllegalArgumentException`, while `Base32.Encode` succeeds and `CodecLaws.EncodedLength` states the unwrapped capacity.
  - `decode` computes `(str.length() + 7) / 8 * 5` in `int` (Base32.java:85). For strings of 2^31 - 7 characters or more `str.length() + 7` wraps and `ByteBuffer.allocate` throws, while `Base32.Decode` proceeds.
- Transposition and substitution detection. Nothing in the code or tests states it.
- Base32.BitsAtOffset: the bit-string property (`Base32.BitsAtOffsetIsGroup`) is proved for length 5 only, the only length the encoder uses.

## Findings

| source | as written | input that shows it | evidently intended | confidence | as-written member | corrected member |
|---|---|---|---|---|---|---|
| src/main/java/de/bitmarck/bms/base32/Base32Check1.java:83-85 | `validate(payload, alphabet)` compares the check character with the literal `'A'`, whatever the alphabet | the default symbols rotated by one (`"BCD…567A"`, symbol for 0 is "B"): the check character of "" is "B", but `validate("B", alphabet)` is false | compare with `alphabet.toChar(0)`, the symbol of a vanishing sum, so that a payload followed by its check character validates under every alphabet | high (not executed) | Check1.Validate, Check1.ValidateRejectsOwnCheck, Check1.RotatedRejectsOwnCheck | Check1.ValidateIntended, Check1.ValidateIntendedOwnCheck |
