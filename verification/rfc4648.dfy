/** The default alphabet: the 32 symbols of the base 32 alphabet of section 6
    of RFC 4648 ("A".."Z" then "2".."7"), `=` as the padding character, and
    whitespace (in the sense of Java's `Character.isWhitespace`) ignored. */
module Rfc4648 {
  import opened Wrappers
  import opened Alphabets

  const Symbols: string := "ABCDEFGHIJKLMNOPQRSTUVWXYZ234567"

  /** The symbol for index `i`, written arithmetically. */
  function SymbolFor(i: Index): char {
    if i < 26 then ('A' as int + i) as char else ('2' as int + i - 26) as char
  }

  /** The index of a symbol, written arithmetically; `None` for non-symbols. */
  function IndexFor(c: char): Option<Index> {
    if 'A' <= c <= 'Z' then Some(c as int - 'A' as int)
    else if '2' <= c <= '7' then Some(c as int - '2' as int + 26)
    else None
  }

  lemma SymbolsSpelled()
    ensures |Symbols| == 32
    ensures forall i: Index :: Symbols[i] == SymbolFor(i)
  {
  }

  lemma SymbolAt(i: Index)
    ensures |Symbols| == 32 && Symbols[i] == SymbolFor(i)
  {
    SymbolsSpelled();
  }

  /** The map from the first `n` symbols to their positions, built one entry
      at a time as the original collects the index stream into a map. */
  function IndexMapUpTo(n: nat): map<char, int>
    requires n <= 32
  {
    if n == 0 then map[] else IndexMapUpTo(n - 1)[Symbols[n - 1] := n - 1]
  }

  /** The map the lookup table is built from: each symbol to its position. */
  function IndexMap(): map<char, int> {
    IndexMapUpTo(32)
  }

  lemma {:induction false} IndexMapUpToIsIndexFor(n: nat, c: char)
    requires n <= 32
    ensures c in IndexMapUpTo(n) <==> IndexFor(c).Some? && IndexFor(c).value < n
    ensures c in IndexMapUpTo(n) ==> IndexMapUpTo(n)[c] == IndexFor(c).value
  {
    if n > 0 {
      IndexMapUpToIsIndexFor(n - 1, c);
      SymbolAt(n - 1);
      if c == SymbolFor(n - 1) {
        assert IndexFor(c) == Some(n - 1);
      } else {
        assert IndexFor(c).Some? ==> IndexFor(c).value != n - 1;
      }
    }
  }

  /** The symbols are exactly the keys of the map, each mapped to its position. */
  lemma IndexMapIsIndexFor(c: char)
    ensures c in IndexMap() <==> IndexFor(c).Some?
    ensures c in IndexMap() ==> IndexMap()[c] == IndexFor(c).value
  {
    IndexMapUpToIsIndexFor(32, c);
  }

  /** The lookup table of the default alphabet. */
  function Lookup(): CharIndicesLookup {
    IndexMapIsIndexFor('A');
    NewLookup(IndexMap()).value
  }

  /** Index to symbol; `None` (the original's array index error) outside [0,32). */
  function ToChar(i: int): (r: Option<char>)
    ensures r.Some? <==> 0 <= i < 32
  {
    if 0 <= i < |Symbols| then Some(Symbols[i]) else None
  }

  /** Symbol to index through the lookup table. */
  function ToIndex(c: char): Option<Index> {
    LookupIsIndexFor(c);
    var g := GetIndex(Lookup(), c);
    if g.Some? then Some(g.value) else None
  }

  /** The table finds exactly the symbols, at their positions. */
  lemma LookupIsIndexFor(c: char)
    ensures GetIndex(Lookup(), c) == if IndexFor(c).Some? then Some(IndexFor(c).value as int) else None
  {
    IndexMapIsIndexFor('A');
    LookupAgrees(IndexMap(), c);
    IndexMapIsIndexFor(c);
  }

  /** Java's `Character.isWhitespace` as of Java 9 (Unicode 6.3 and later,
      where U+180E is no longer a space separator): the space, line and
      paragraph separators other than the no-break spaces U+00A0, U+2007 and
      U+202F, together with the controls U+0009..U+000D and U+001C..U+001F. */
  predicate IsWhitespace(c: char) {
    var n := c as int;
    || 0x09 <= n <= 0x0D
    || 0x1C <= n <= 0x20
    || n == 0x1680
    || (0x2000 <= n <= 0x200A && n != 0x2007)
    || n == 0x2028 || n == 0x2029 || n == 0x205F || n == 0x3000
  }

  /** The default alphabet. */
  function Rfc(): Alphabet {
    Alphabet(ToChar, ToIndex, IsWhitespace, '=')
  }

  /** `toIndex` agrees with the arithmetic reference: it accepts exactly
      "A".."Z" and "2".."7" and maps them to 0..25 and 26..31. */
  lemma ToIndexIsIndexFor(c: char)
    ensures ToIndex(c) == IndexFor(c)
  {
    LookupIsIndexFor(c);
  }

  /** `toChar` agrees with the arithmetic reference on [0,32). */
  lemma ToCharIsSymbolFor(i: int)
    ensures ToChar(i) == if 0 <= i < 32 then Some(SymbolFor(i)) else None
  {
    SymbolsSpelled();
  }

  /** `toIndex` inverts `toChar` on every index. */
  lemma ToIndexToChar(i: Index)
    ensures ToIndex(ToChar(i).value) == Some(i)
  {
    ToCharIsSymbolFor(i);
    ToIndexIsIndexFor(SymbolFor(i));
  }

  /** Characters outside the alphabet are rejected: lower case letters, the
      digits that are not symbols, and the padding character. */
  lemma RejectsNonSymbols(c: char)
    requires 'a' <= c <= 'z' || c in "0189="
    ensures ToIndex(c) == None
  {
    ToIndexIsIndexFor(c);
  }

  /** The keys of the map run from "2" to "Z". */
  lemma IndexMapRange()
    ensures '2' in IndexMap() && 'Z' in IndexMap()
    ensures forall c :: c in IndexMap() ==> '2' <= c <= 'Z'
  {
    IndexMapIsIndexFor('2');
    IndexMapIsIndexFor('Z');
    forall c | c in IndexMap() ensures '2' <= c <= 'Z' {
      IndexMapIsIndexFor(c);
    }
  }

  /** Slot `i` of the table describes the character "2" + i. */
  lemma LookupSlot(i: int)
    requires 0 <= i < 41
    ensures |Lookup().indices| == 41
    ensures Lookup().indices[i] ==
      var c := ('2' as int + i) as char;
      if IndexFor(c).Some? then IndexFor(c).value else -1
  {
    IndexMapRange();
    LookupShape(IndexMap(), '2', 'Z');
    var c := ('2' as int + i) as char;
    assert c as int - '2' as int == i;
    IndexMapIsIndexFor(c);
  }

  /** The table spans "2".."Z" (41 slots), with -1 in the slots "8".."@". */
  lemma LookupSpan()
    ensures Lookup().min == '2'
    ensures |Lookup().indices| == 41
    ensures forall i :: 0 <= i < 41 ==> (Lookup().indices[i] == -1 <==> 6 <= i < 15)
  {
    IndexMapRange();
    LookupShape(IndexMap(), '2', 'Z');
    forall i | 0 <= i < 41 ensures Lookup().indices[i] == -1 <==> 6 <= i < 15 {
      LookupSlot(i);
    }
  }

  /** The padding character is not a symbol. */
  lemma PadIsNotSymbol()
    ensures ToIndex('=') == None
    ensures '=' !in Symbols
  {
    ToIndexIsIndexFor('=');
    SymbolsSpelled();
  }

  /** Whitespace never swallows a symbol or the padding character. */
  lemma IgnoreSparesSymbols(c: char)
    requires ToIndex(c).Some? || c == '='
    ensures !IsWhitespace(c)
  {
    ToIndexIsIndexFor(c);
  }

  /** The default alphabet has a symbol exactly for 0 to 31, and reads each
      symbol back as its index. */
  lemma RfcSymbolsRead()
    ensures forall i :: Rfc().toChar(i).Some? <==> 0 <= i < 32
    ensures forall i: Index :: Rfc().toIndex(Rfc().toChar(i).value) == Some(i)
  {
    var a := Rfc();
    assert a.toChar == ToChar && a.toIndex == ToIndex;
    forall i: Index ensures ToIndex(ToChar(i).value) == Some(i) {
      ToIndexToChar(i);
    }
  }

  /** The default alphabet spells each index it reads back as the character
      it was read from, and ignores none of its symbols. */
  lemma RfcIndicesSpelled()
    ensures forall c :: Rfc().toIndex(c).Some? ==> Rfc().toChar(Rfc().toIndex(c).value) == Some(c)
    ensures forall c :: Rfc().toIndex(c).Some? ==> !Rfc().ignore(c)
  {
    var a := Rfc();
    assert a.toChar == ToChar && a.toIndex == ToIndex && a.ignore == IsWhitespace;
    forall c | ToIndex(c).Some? ensures ToChar(ToIndex(c).value) == Some(c) && !IsWhitespace(c) {
      ToIndexIsIndexFor(c);
      ToCharIsSymbolFor(ToIndex(c).value);
      IgnoreSparesSymbols(c);
    }
  }

  /** The default alphabet satisfies the alphabet contract. */
  lemma RfcWellFormed()
    ensures WellFormed(Rfc())
  {
    RfcSymbolsRead();
    RfcIndicesSpelled();
    PadIsNotSymbol();
    IgnoreSparesSymbols('=');
    var a := Rfc();
    assert a.toIndex == ToIndex && a.ignore == IsWhitespace && a.pad == '=';
  }
}
