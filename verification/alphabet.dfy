/** The alphabet contract of the base 32 codec and the dense character lookup
    table that alphabets use to map symbols back to their indices.

    An alphabet is four operations: `toChar` (index to symbol, failing on an
    unsupported index), `toIndex` (symbol to index, failing on an unsupported
    character), `ignore` (characters the decoder skips) and `pad` (the padding
    character, where the character with code 0 means "no padding"). The two
    failing operations return `None` where the original throws.
 */
module Alphabets {
  import opened Wrappers

  /** A 5-bit symbol index. */
  type Index = i: nat | i < 32

  /** The character with code 0, which `pad` returns when the alphabet has no padding. */
  const NoPad: char := 0 as char

  datatype Alphabet = Alphabet(
    toChar: int -> Option<char>,
    toIndex: char -> Option<Index>,
    ignore: char -> bool,
    pad: char)

  /** What the codec relies on: `toChar` is defined exactly on [0,32), `toChar`
      and `toIndex` are inverse, symbols are never ignored, and the padding
      character (when there is one) is neither a symbol nor ignored. */
  ghost predicate WellFormed(a: Alphabet) {
    && (forall i :: a.toChar(i).Some? <==> 0 <= i < 32)
    && (forall i: Index :: a.toIndex(a.toChar(i).value) == Some(i))
    && (forall c :: a.toIndex(c).Some? ==> a.toChar(a.toIndex(c).value) == Some(c))
    && (forall c :: a.toIndex(c).Some? ==> !a.ignore(c))
    && (a.pad != NoPad ==> a.toIndex(a.pad).None? && !a.ignore(a.pad))
  }

  /* ---------------------------------------------------------------------- */
  /* The dense lookup table                                                  */
  /* ---------------------------------------------------------------------- */

  /** The table covers every character from the smallest to the largest key of
      the map it was built from; `indices[i]` describes the character `min + i`. */
  datatype CharIndicesLookup = CharIndicesLookup(min: char, indices: seq<int>)

  /** Building a table from an empty map fails (there is no smallest key). */
  datatype LookupError = EmptyKeySet

  /** Whether `cp` is the code of a character. */
  predicate IsCharCode(cp: int) {
    0 <= cp < 0xD800 || 0xE000 <= cp < 0x11_0000
  }

  /** A smallest element of a non-empty set of characters exists. */
  lemma {:induction false} MinWitness(s: set<char>) returns (k: char)
    requires s != {}
    ensures k in s && forall x :: x in s ==> k <= x
  {
    var y :| y in s;
    if s == {y} {
      k := y;
    } else {
      var k' := MinWitness(s - {y});
      k := if y < k' then y else k';
      forall x | x in s ensures k <= x {
        if x != y {
          assert x in s - {y};
        }
      }
    }
  }

  /** A largest element of a non-empty set of characters exists. */
  lemma {:induction false} MaxWitness(s: set<char>) returns (k: char)
    requires s != {}
    ensures k in s && forall x :: x in s ==> x <= k
  {
    var y :| y in s;
    if s == {y} {
      k := y;
    } else {
      var k' := MaxWitness(s - {y});
      k := if k' < y then y else k';
      forall x | x in s ensures x <= k {
        if x != y {
          assert x in s - {y};
        }
      }
    }
  }

  lemma MinExists(s: set<char>)
    requires s != {}
    ensures exists k :: k in s && forall x :: x in s ==> k <= x
  {
    var k := MinWitness(s);
  }

  lemma MaxExists(s: set<char>)
    requires s != {}
    ensures exists k :: k in s && forall x :: x in s ==> x <= k
  {
    var k := MaxWitness(s);
  }

  /** The smallest element of a non-empty set of characters. */
  function MinOf(s: set<char>): (k: char)
    requires s != {}
    ensures k in s && forall x :: x in s ==> k <= x
  {
    MinExists(s);
    var k :| k in s && forall x :: x in s ==> k <= x;
    k
  }

  /** The largest element of a non-empty set of characters. */
  function MaxOf(s: set<char>): (k: char)
    requires s != {}
    ensures k in s && forall x :: x in s ==> x <= k
  {
    MaxExists(s);
    var k :| k in s && forall x :: x in s ==> x <= k;
    k
  }

  /** The map's entry for the character with code `cp`, or -1 when there is
      none. A code that is not a character (a surrogate) is never a key. */
  function EntryOrDefault(m: map<char, int>, cp: int): int {
    if IsCharCode(cp) && cp as char in m then m[cp as char] else -1
  }

  /** Builds the table: `max - min + 1` slots, slot `i` holding the entry for
      the character `min + i` or -1 when that character is not a key. */
  function NewLookup(m: map<char, int>): (r: Result<CharIndicesLookup, LookupError>)
    ensures r.Failure? <==> m == map[]
    ensures r.Success? ==>
      && r.value.min in m
      && (forall c :: c in m ==> r.value.min <= c && c as int - r.value.min as int < |r.value.indices|)
      && IsCharCode(r.value.min as int + |r.value.indices| - 1)
      && (r.value.min as int + |r.value.indices| - 1) as char in m
  {
    if m.Keys == {} then
      assert m == map[];
      Failure(EmptyKeySet)
    else
      var lo := MinOf(m.Keys);
      var hi := MaxOf(m.Keys);
      Success(CharIndicesLookup(lo, seq(hi as int - lo as int + 1, i => EntryOrDefault(m, lo as int + i))))
  }

  /** Looks a character up; `None` where the original throws. */
  function GetIndex(l: CharIndicesLookup, c: char): (r: Option<int>)
    ensures r.Some? ==> r.value >= 0
  {
    var k := c as int - l.min as int;
    if 0 <= k < |l.indices| && l.indices[k] >= 0 then Some(l.indices[k]) else None
  }

  /** The table spans exactly the keys: its length is `max - min + 1` for the
      smallest and largest key, and each slot holds the map's entry for its
      character or -1. */
  lemma LookupShape(m: map<char, int>, lo: char, hi: char)
    requires lo in m && hi in m
    requires forall c :: c in m ==> lo <= c <= hi
    ensures NewLookup(m).Success?
    ensures NewLookup(m).value.min == lo
    ensures |NewLookup(m).value.indices| == hi as int - lo as int + 1
    ensures forall c :: lo <= c <= hi ==>
      NewLookup(m).value.indices[c as int - lo as int] == (if c in m then m[c] else -1)
  {
    var l := NewLookup(m).value;
    assert l.min <= lo && lo <= l.min;
    var top := (l.min as int + |l.indices| - 1) as char;
    assert top <= hi && hi <= top;
    forall c | lo <= c <= hi
      ensures l.indices[c as int - lo as int] == (if c in m then m[c] else -1)
    {
      var k := c as int - lo as int;
      assert l.indices[k] == EntryOrDefault(m, lo as int + k);
      assert IsCharCode(c as int);
      assert (lo as int + k) as char == c;
    }
  }

  /** The table agrees with the map it was built from: a character is found
      exactly when it is a key with a non-negative entry, and then the entry is
      what is found. */
  lemma LookupAgrees(m: map<char, int>, c: char)
    requires m != map[]
    ensures GetIndex(NewLookup(m).value, c) == (if c in m && m[c] >= 0 then Some(m[c]) else None)
  {
    var l := NewLookup(m).value;
    var k := c as int - l.min as int;
    if 0 <= k < |l.indices| {
      assert (l.min as int + k) as char == c;
    }
  }

  /** The failure cases of the lookup: characters below the smallest key, above
      the largest key, and in the gaps between keys are all rejected. */
  lemma LookupRejects(m: map<char, int>, c: char)
    requires m != map[]
    requires c !in m || m[c] < 0
    ensures GetIndex(NewLookup(m).value, c) == None
  {
    LookupAgrees(m, c);
  }
}
