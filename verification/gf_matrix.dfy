/**
  Arithmetic over GF(2) for the Base32Check1 checksum: Java's bitwise `^`
  and `&` on non-negative `int`s, and `matMul`, which multiplies a row
  vector by a matrix.

  An element of GF(2^5) is a 5-bit vector held in a Java `int`; here it is a
  `nat`, and the lemmas show it stays below 32. A matrix is a sequence of
  five rows, and bit `4 - j` of a row vector selects row `j` (most
  significant bit first), as `(a[i] & (1 << (b.length - 1 - j))) != 0` does
  for the five-row matrices the checksum uses.
*/
module GfMatrix {

  /** `2^k`. */
  function Pow2(k: nat): (r: nat)
    ensures r >= 1
  {
    if k == 0 then 1 else 2 * Pow2(k - 1)
  }

  /** Is bit `s` of `x` set, i.e. Java's `(x & (1 << s)) != 0`? */
  predicate HasBit(x: nat, s: nat) {
    if s == 0 then x % 2 == 1 else HasBit(x / 2, s - 1)
  }

  /** Java's `a ^ b` on non-negative `int`s, one bit at a time from the least significant end. */
  function Xor(a: nat, b: nat): nat
    decreases a + b
  {
    if a == 0 then b
    else if b == 0 then a
    else 2 * Xor(a / 2, b / 2) + (if a % 2 == b % 2 then 0 else 1)
  }

  lemma {:induction false} ZeroHasNoBits(s: nat)
    ensures !HasBit(0, s)
  {
    if s > 0 {
      ZeroHasNoBits(s - 1);
    }
  }

  /** Bit `s` of `a ^ b` is set iff exactly one of `a`, `b` has it. */
  lemma {:induction false} XorBit(a: nat, b: nat, s: nat)
    ensures HasBit(Xor(a, b), s) <==> (HasBit(a, s) != HasBit(b, s))
    decreases a + b
  {
    if a == 0 {
      ZeroHasNoBits(s);
    } else if b == 0 {
      ZeroHasNoBits(s);
    } else {
      var d := if a % 2 == b % 2 then 0 else 1;
      var x := 2 * Xor(a / 2, b / 2) + d;
      assert x % 2 == d && x / 2 == Xor(a / 2, b / 2);
      if s > 0 {
        XorBit(a / 2, b / 2, s - 1);
      }
    }
  }

  /** Two numbers with the same bits are equal. */
  lemma {:induction false} BitsEqual(a: nat, b: nat)
    requires forall s: nat :: HasBit(a, s) == HasBit(b, s)
    ensures a == b
    decreases a + b
  {
    assert HasBit(a, 0) == HasBit(b, 0);
    if a != 0 || b != 0 {
      forall s: nat
        ensures HasBit(a / 2, s) == HasBit(b / 2, s)
      {
        assert HasBit(a, s + 1) == HasBit(b, s + 1);
      }
      BitsEqual(a / 2, b / 2);
    }
  }

  lemma XorComm(a: nat, b: nat)
    ensures Xor(a, b) == Xor(b, a)
  {
    forall s: nat
      ensures HasBit(Xor(a, b), s) == HasBit(Xor(b, a), s)
    {
      XorBit(a, b, s);
      XorBit(b, a, s);
    }
    BitsEqual(Xor(a, b), Xor(b, a));
  }

  lemma XorAssoc(a: nat, b: nat, c: nat)
    ensures Xor(Xor(a, b), c) == Xor(a, Xor(b, c))
  {
    forall s: nat
      ensures HasBit(Xor(Xor(a, b), c), s) == HasBit(Xor(a, Xor(b, c)), s)
    {
      XorBit(Xor(a, b), c, s);
      XorBit(a, b, s);
      XorBit(a, Xor(b, c), s);
      XorBit(b, c, s);
    }
    BitsEqual(Xor(Xor(a, b), c), Xor(a, Xor(b, c)));
  }

  lemma XorSelf(a: nat)
    ensures Xor(a, a) == 0
  {
    forall s: nat
      ensures HasBit(Xor(a, a), s) == HasBit(0, s)
    {
      XorBit(a, a, s);
      ZeroHasNoBits(s);
    }
    BitsEqual(Xor(a, a), 0);
  }

  /** `(a0 ^ b0) ^ (a1 ^ b1) == (a0 ^ a1) ^ (b0 ^ b1)`. */
  lemma XorSwap(a0: nat, b0: nat, a1: nat, b1: nat)
    ensures Xor(Xor(a0, b0), Xor(a1, b1)) == Xor(Xor(a0, a1), Xor(b0, b1))
  {
    forall s: nat
      ensures HasBit(Xor(Xor(a0, b0), Xor(a1, b1)), s) == HasBit(Xor(Xor(a0, a1), Xor(b0, b1)), s)
    {
      XorBit(Xor(a0, b0), Xor(a1, b1), s);
      XorBit(a0, b0, s);
      XorBit(a1, b1, s);
      XorBit(Xor(a0, a1), Xor(b0, b1), s);
      XorBit(a0, a1, s);
      XorBit(b0, b1, s);
    }
    BitsEqual(Xor(Xor(a0, b0), Xor(a1, b1)), Xor(Xor(a0, a1), Xor(b0, b1)));
  }

  /** No bit at or above position `k` is set in a number below `2^k`. */
  lemma {:induction false} HighBitsClear(x: nat, k: nat, s: nat)
    requires x < Pow2(k) && s >= k
    ensures !HasBit(x, s)
  {
    if k == 0 {
      assert x == 0;
      ZeroHasNoBits(s);
    } else {
      HighBitsClear(x / 2, k - 1, s - 1);
    }
  }

  /** XOR never sets a bit that neither operand has: it stays below `2^k`. */
  lemma {:induction false} XorBelow(a: nat, b: nat, k: nat)
    requires a < Pow2(k) && b < Pow2(k)
    ensures Xor(a, b) < Pow2(k)
    decreases a + b
  {
    if a != 0 && b != 0 {
      XorBelow(a / 2, b / 2, k - 1);
    }
  }

  /** `2^k` has exactly bit `k` set. */
  lemma {:induction false} Pow2Bit(k: nat, s: nat)
    ensures HasBit(Pow2(k), s) <==> s == k
  {
    if k == 0 {
      if s > 0 {
        ZeroHasNoBits(s - 1);
      }
    } else if s > 0 {
      Pow2Bit(k - 1, s - 1);
    } else {
      assert Pow2(k) % 2 == 0;
    }
  }

  /** An element of GF(2^5): a 5-bit vector. */
  predicate IsElem(x: nat) {
    x < 32
  }

  type Matrix = m: seq<nat> | |m| == 5 witness [0, 0, 0, 0, 0]

  /** Every row of `m` is an element of GF(2^5). */
  predicate RowsAreElems(m: Matrix) {
    IsElem(m[0]) && IsElem(m[1]) && IsElem(m[2]) && IsElem(m[3]) && IsElem(m[4])
  }

  /** Does the row vector `x` select row `j` of a matrix? */
  predicate Selects(x: nat, j: nat)
    requires j < 5
  {
    HasBit(x, 4 - j)
  }

  /** Row `j` of `b` if `x` selects it, and the zero vector otherwise. */
  function Term(x: nat, b: Matrix, j: nat): nat
    requires j < 5
  {
    if Selects(x, j) then b[j] else 0
  }

  /** The inner loop of `matMul` after `j` steps: the XOR of those rows among `b[..j]` that `x` selects. */
  function RowTimesUpTo(x: nat, b: Matrix, j: nat): nat
    requires j <= 5
  {
    if j == 0 then 0 else Xor(RowTimesUpTo(x, b, j - 1), Term(x, b, j - 1))
  }

  /** The row vector `x` times the matrix `b`, i.e. `matMul(new int[]{x}, b)[0]`. */
  function RowTimes(x: nat, b: Matrix): nat
  {
    RowTimesUpTo(x, b, |b|)
  }

  /** `matMul(a, b)`: every row of `a` multiplied by `b`. */
  function MatMul(a: Matrix, b: Matrix): (m: Matrix)
    ensures forall i :: 0 <= i < 5 ==> m[i] == RowTimes(a[i], b)
  {
    seq(|a|, i requires 0 <= i < |a| => RowTimes(a[i], b))
  }

  lemma {:induction false} RowTimesUpToBound(x: nat, b: Matrix, j: nat)
    requires j <= 5
    requires RowsAreElems(b)
    ensures IsElem(RowTimesUpTo(x, b, j))
  {
    if j > 0 {
      RowTimesUpToBound(x, b, j - 1);
      XorBelow(RowTimesUpTo(x, b, j - 1), Term(x, b, j - 1), 5);
    }
  }

  /** A product stays in [0, 32) when every row of the matrix does. */
  lemma RowTimesBound(x: nat, b: Matrix)
    requires RowsAreElems(b)
    ensures IsElem(RowTimes(x, b))
  {
    RowTimesUpToBound(x, b, 5);
  }

  lemma MatMulBound(a: Matrix, b: Matrix)
    requires RowsAreElems(b)
    ensures RowsAreElems(MatMul(a, b))
  {
    RowTimesBound(a[0], b);
    RowTimesBound(a[1], b);
    RowTimesBound(a[2], b);
    RowTimesBound(a[3], b);
    RowTimesBound(a[4], b);
  }

  lemma TermLinear(x: nat, y: nat, b: Matrix, j: nat)
    requires j < 5
    ensures Term(Xor(x, y), b, j) == Xor(Term(x, b, j), Term(y, b, j))
  {
    XorBit(x, y, 4 - j);
    var sx, sy := Selects(x, j), Selects(y, j);
    assert Selects(Xor(x, y), j) == (sx != sy);
    if sx && sy {
      XorSelf(b[j]);
    } else if sx {
      assert Xor(b[j], 0) == b[j];
    } else if sy {
      assert Xor(0, b[j]) == b[j];
    } else {
      assert Xor(0, 0) == 0;
    }
  }

  lemma {:induction false} RowTimesUpToLinear(x: nat, y: nat, b: Matrix, j: nat)
    requires j <= 5
    ensures RowTimesUpTo(Xor(x, y), b, j) == Xor(RowTimesUpTo(x, b, j), RowTimesUpTo(y, b, j))
  {
    if j > 0 {
      RowTimesUpToLinear(x, y, b, j - 1);
      TermLinear(x, y, b, j - 1);
      XorSwap(RowTimesUpTo(x, b, j - 1), RowTimesUpTo(y, b, j - 1), Term(x, b, j - 1), Term(y, b, j - 1));
    }
  }

  /** Multiplication by a matrix is XOR-linear in the row vector. */
  lemma RowTimesLinear(x: nat, y: nat, b: Matrix)
    ensures RowTimes(Xor(x, y), b) == Xor(RowTimes(x, b), RowTimes(y, b))
  {
    RowTimesUpToLinear(x, y, b, 5);
  }

  lemma {:induction false} RowTimesUpToZero(b: Matrix, j: nat)
    requires j <= 5
    ensures RowTimesUpTo(0, b, j) == 0
  {
    if j > 0 {
      RowTimesUpToZero(b, j - 1);
      ZeroHasNoBits(4 - (j - 1));
    }
  }

  /** The zero vector is mapped to zero. */
  lemma RowTimesZero(b: Matrix)
    ensures RowTimes(0, b) == 0
  {
    RowTimesUpToZero(b, 5);
  }

  lemma TermTimes(x: nat, a: Matrix, b: Matrix, j: nat)
    requires j < 5
    ensures RowTimes(Term(x, a, j), b) == Term(x, MatMul(a, b), j)
  {
    if !Selects(x, j) {
      RowTimesZero(b);
    }
  }

  lemma {:induction false} RowTimesUpToAssoc(x: nat, a: Matrix, b: Matrix, j: nat)
    requires j <= 5
    ensures RowTimes(RowTimesUpTo(x, a, j), b) == RowTimesUpTo(x, MatMul(a, b), j)
  {
    if j == 0 {
      RowTimesZero(b);
    } else {
      RowTimesUpToAssoc(x, a, b, j - 1);
      RowTimesLinear(RowTimesUpTo(x, a, j - 1), Term(x, a, j - 1), b);
      TermTimes(x, a, b, j - 1);
    }
  }

  /** `(x * a) * b == x * (a * b)`: multiplying by two matrices in turn is multiplying by their product. */
  lemma RowTimesAssoc(x: nat, a: Matrix, b: Matrix)
    ensures RowTimes(RowTimes(x, a), b) == RowTimes(x, MatMul(a, b))
  {
    RowTimesUpToAssoc(x, a, b, 5);
  }

  /** Matrix products are associative. */
  lemma MatMulAssoc(a: Matrix, b: Matrix, c: Matrix)
    ensures MatMul(MatMul(a, b), c) == MatMul(a, MatMul(b, c))
  {
    forall i | 0 <= i < 5
      ensures MatMul(MatMul(a, b), c)[i] == MatMul(a, MatMul(b, c))[i]
    {
      RowTimesAssoc(a[i], b, c);
    }
  }

  /** The identity matrix: row `j` is the vector with only bit `4 - j` set. */
  const Identity: Matrix := [16, 8, 4, 2, 1]

  lemma {:induction false} RowTimesUpToIdentity(x: nat, j: nat, s: nat)
    requires j <= 5
    ensures HasBit(RowTimesUpTo(x, Identity, j), s) <==> HasBit(x, s) && 5 - j <= s < 5
  {
    if j == 0 {
      ZeroHasNoBits(s);
    } else {
      RowTimesUpToIdentity(x, j - 1, s);
      XorBit(RowTimesUpTo(x, Identity, j - 1), Term(x, Identity, j - 1), s);
      assert Identity[j - 1] == Pow2(4 - (j - 1));
      Pow2Bit(4 - (j - 1), s);
      ZeroHasNoBits(s);
    }
  }

  /** Multiplying an element by the identity gives it back. */
  lemma RowTimesIdentity(x: nat)
    requires IsElem(x)
    ensures RowTimes(x, Identity) == x
  {
    forall s: nat
      ensures HasBit(RowTimes(x, Identity), s) == HasBit(x, s)
    {
      RowTimesUpToIdentity(x, 5, s);
      if s >= 5 {
        HighBitsClear(x, 5, s);
      }
    }
    BitsEqual(RowTimes(x, Identity), x);
  }

  /* Evaluation through 5-bit vectors. The recursive `Xor` is convenient for
     algebra but slow to evaluate on constants; `^` on `bv5` is folded at
     once. An element and a 5-bit vector agree when they have the same five
     bits, and agreement is carried through `RowTimes` and `MatMul` one bit
     at a time, so that no proof mixes the two representations. */

  /** The element `x` and the 5-bit vector `u` have the same bits. */
  ghost predicate Agrees(x: nat, u: bv5) {
    IsElem(x) &&
    HasBit(x, 0) == (u & 1 != 0) && HasBit(x, 1) == (u & 2 != 0) && HasBit(x, 2) == (u & 4 != 0) &&
    HasBit(x, 3) == (u & 8 != 0) && HasBit(x, 4) == (u & 16 != 0)
  }

  /** Two numbers that agree with the same vector are equal. */
  lemma AgreesEqual(x: nat, y: nat, u: bv5)
    requires Agrees(x, u) && Agrees(y, u)
    ensures x == y
  {
    forall s: nat
      ensures HasBit(x, s) == HasBit(y, s)
    {
      if s >= 5 {
        HighBitsClear(x, 5, s);
        HighBitsClear(y, 5, s);
      }
    }
    BitsEqual(x, y);
  }

  /** A matrix whose rows are elements, as five 5-bit vectors. */
  datatype BvMatrix = BvMatrix(r0: bv5, r1: bv5, r2: bv5, r3: bv5, r4: bv5)

  /** Each row of `m` agrees with the corresponding row of `bm`. */
  ghost predicate MatrixAgrees(m: Matrix, bm: BvMatrix) {
    Agrees(m[0], bm.r0) && Agrees(m[1], bm.r1) && Agrees(m[2], bm.r2) && Agrees(m[3], bm.r3) && Agrees(m[4], bm.r4)
  }

  /** `r` if `x` has the bit `mask`, and 0 otherwise. */
  function PickBv(x: bv5, mask: bv5, r: bv5): bv5 {
    if x & mask != 0 then r else 0
  }

  /** `RowTimes` on 5-bit vectors. */
  function RowTimesBv(x: bv5, b: BvMatrix): bv5 {
    PickBv(x, 16, b.r0) ^ PickBv(x, 8, b.r1) ^ PickBv(x, 4, b.r2) ^ PickBv(x, 2, b.r3) ^ PickBv(x, 1, b.r4)
  }

  /** `MatMul` on 5-bit vectors. */
  function MatMulBv(a: BvMatrix, b: BvMatrix): BvMatrix {
    BvMatrix(RowTimesBv(a.r0, b), RowTimesBv(a.r1, b), RowTimesBv(a.r2, b), RowTimesBv(a.r3, b), RowTimesBv(a.r4, b))
  }

  /** Is an odd number of the five set? */
  predicate Parity(p0: bool, p1: bool, p2: bool, p3: bool, p4: bool) {
    (((p0 != p1) != p2) != p3) != p4
  }

  /** Bit `s` of a term of `RowTimes`. */
  predicate TermBit(x: nat, b: Matrix, j: nat, s: nat)
    requires j < 5
  {
    Selects(x, j) && HasBit(b[j], s)
  }

  lemma {:induction false} RowTimesUpToBit(x: nat, b: Matrix, j: nat, s: nat)
    requires 1 <= j <= 5
    ensures HasBit(RowTimesUpTo(x, b, j), s) ==
      if j == 1 then TermBit(x, b, 0, s) else HasBit(RowTimesUpTo(x, b, j - 1), s) != TermBit(x, b, j - 1, s)
  {
    XorBit(RowTimesUpTo(x, b, j - 1), Term(x, b, j - 1), s);
    ZeroHasNoBits(s);
    if j == 1 {
      assert RowTimesUpTo(x, b, 0) == 0;
    }
  }

  /** Bit `s` of `x * b` is the parity of bit `s` of the rows `x` selects. */
  lemma RowTimesBit(x: nat, b: Matrix, s: nat)
    ensures HasBit(RowTimes(x, b), s) ==
      Parity(TermBit(x, b, 0, s), TermBit(x, b, 1, s), TermBit(x, b, 2, s), TermBit(x, b, 3, s), TermBit(x, b, 4, s))
  {
    RowTimesUpToBit(x, b, 1, s);
    RowTimesUpToBit(x, b, 2, s);
    RowTimesUpToBit(x, b, 3, s);
    RowTimesUpToBit(x, b, 4, s);
    RowTimesUpToBit(x, b, 5, s);
  }

  /** The same on 5-bit vectors, for the bit `mask`. */
  lemma RowTimesBvBit(x: bv5, b: BvMatrix, mask: bv5)
    requires mask == 1 || mask == 2 || mask == 4 || mask == 8 || mask == 16
    ensures (RowTimesBv(x, b) & mask != 0) ==
      Parity(x & 16 != 0 && b.r0 & mask != 0, x & 8 != 0 && b.r1 & mask != 0, x & 4 != 0 && b.r2 & mask != 0,
             x & 2 != 0 && b.r3 & mask != 0, x & 1 != 0 && b.r4 & mask != 0)
  {
  }

  /** Bit `s` of `x * b` agrees with the bit `mask` of its 5-bit counterpart. */
  lemma RowTimesAgreesBit(x: nat, u: bv5, b: Matrix, bm: BvMatrix, s: nat, mask: bv5)
    requires Agrees(x, u) && MatrixAgrees(b, bm)
    requires (s == 0 && mask == 1) || (s == 1 && mask == 2) || (s == 2 && mask == 4) || (s == 3 && mask == 8) || (s == 4 && mask == 16)
    ensures HasBit(RowTimes(x, b), s) == (RowTimesBv(u, bm) & mask != 0)
  {
    RowTimesBit(x, b, s);
    RowTimesBvBit(u, bm, mask);
  }

  /** Agreement is carried through `RowTimes`. */
  lemma RowTimesAgrees(x: nat, u: bv5, b: Matrix, bm: BvMatrix)
    requires Agrees(x, u) && MatrixAgrees(b, bm)
    ensures Agrees(RowTimes(x, b), RowTimesBv(u, bm))
  {
    RowTimesBound(x, b);
    RowTimesAgreesBit(x, u, b, bm, 0, 1);
    RowTimesAgreesBit(x, u, b, bm, 1, 2);
    RowTimesAgreesBit(x, u, b, bm, 2, 4);
    RowTimesAgreesBit(x, u, b, bm, 3, 8);
    RowTimesAgreesBit(x, u, b, bm, 4, 16);
  }

  /** Agreement is carried through `MatMul`. */
  lemma MatMulAgrees(a: Matrix, am: BvMatrix, b: Matrix, bm: BvMatrix)
    requires MatrixAgrees(a, am) && MatrixAgrees(b, bm)
    ensures MatrixAgrees(MatMul(a, b), MatMulBv(am, bm))
  {
    RowTimesAgrees(a[0], am.r0, b, bm);
    RowTimesAgrees(a[1], am.r1, b, bm);
    RowTimesAgrees(a[2], am.r2, b, bm);
    RowTimesAgrees(a[3], am.r3, b, bm);
    RowTimesAgrees(a[4], am.r4, b, bm);
  }

  /** Two matrices that agree with the same 5-bit matrix are equal. */
  lemma MatrixAgreesEqual(m: Matrix, n: Matrix, bm: BvMatrix)
    requires MatrixAgrees(m, bm) && MatrixAgrees(n, bm)
    ensures m == n
  {
    AgreesEqual(m[0], n[0], bm.r0);
    AgreesEqual(m[1], n[1], bm.r1);
    AgreesEqual(m[2], n[2], bm.r2);
    AgreesEqual(m[3], n[3], bm.r3);
    AgreesEqual(m[4], n[4], bm.r4);
  }

  /** The 5-bit vector with the bits of `x`. */
  function ElemBv(x: nat): bv5 {
    (if HasBit(x, 4) then 16 else 0) | (if HasBit(x, 3) then 8 else 0) | (if HasBit(x, 2) then 4 else 0) |
    (if HasBit(x, 1) then 2 else 0) | (if HasBit(x, 0) then 1 else 0)
  }

  /** Every element agrees with the vector of its bits. */
  lemma ElemAgrees(x: nat)
    requires IsElem(x)
    ensures Agrees(x, ElemBv(x))
  {
  }

  /** Agreement is carried through XOR. */
  lemma XorAgrees(a: nat, u: bv5, b: nat, w: bv5)
    requires Agrees(a, u) && Agrees(b, w)
    ensures Agrees(Xor(a, b), u ^ w)
  {
    assert Pow2(5) == 32;
    XorBelow(a, b, 5);
    XorBit(a, b, 0);
    XorBit(a, b, 1);
    XorBit(a, b, 2);
    XorBit(a, b, 3);
    XorBit(a, b, 4);
  }

  /** The identity in 5-bit form. */
  const IdentityBv: BvMatrix := BvMatrix(16, 8, 4, 2, 1)

  lemma IdentityAgrees()
    ensures MatrixAgrees(Identity, IdentityBv)
  {
  }
}
