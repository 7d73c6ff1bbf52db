/** The Base32Check1 check character: a weighted sum of the payload's symbol
    values in GF(2^5), the weights being powers of a primitive element given
    as a 5x5 matrix over GF(2), mapped back to a symbol. Appending the check
    character makes the weighted sum vanish. */
module Check1 {
  import opened Wrappers
  import opened Alphabets
  import opened GfMatrix
  import opened Rfc4648

  /** The number of elements of GF(2^5); the non-zero ones form a cyclic group
      of order `Cardinal - 1 == 31`. */
  const Cardinal: nat := 32

  /** The primitive element of the default instance. */
  const Primitive: Matrix := [0x01, 0x11, 0x08, 0x05, 0x03]

  /* ---------------------------------------------------------------------- */
  /* Powers of the primitive                                                 */
  /* ---------------------------------------------------------------------- */

  /** `p^k` for `k >= 1`. */
  function Power(p: Matrix, k: nat): Matrix
    requires k >= 1
  {
    if k == 1 then p else MatMul(Power(p, k - 1), p)
  }

  /** The exponent slot `k` of the table serves: `k` for `1 <= k < 31`,
      and 31 for slot 0, so that slot `k % 31` serves every exponent
      congruent to `k`. */
  function SlotExponent(k: nat): (e: nat)
    requires k < Cardinal - 1
    ensures 1 <= e <= Cardinal - 1
    ensures e % (Cardinal - 1) == k % (Cardinal - 1)
  {
    if k == 0 then Cardinal - 1 else k
  }

  /** The power of `p` in slot `k` of the table. */
  function Slot(p: Matrix, k: nat): Matrix
    requires k < Cardinal - 1
  {
    Power(p, SlotExponent(k))
  }

  /** The table of powers. */
  function PowerTable(p: Matrix): (t: seq<Matrix>)
    ensures |t| == Cardinal - 1
    ensures forall k :: 0 <= k < Cardinal - 1 ==> t[k] == Slot(p, k)
  {
    seq(Cardinal - 1, k requires 0 <= k < Cardinal - 1 => Slot(p, k))
  }

  /** The construction of the table: slot 1 is the primitive, each further
      slot is the previous one times the primitive, and the 31st power goes
      to slot 0. */
  method GetPrimitivePowers(p: Matrix) returns (t: seq<Matrix>)
    ensures |t| == Cardinal - 1
    ensures t[0] == Power(p, 31)
    ensures forall k :: 1 <= k < 31 ==> t[k] == Power(p, k)
  {
    var powers: seq<Matrix> := seq(Cardinal - 1, _ => Identity);
    powers := powers[1 := p];
    var i := 2;
    while i <= |powers|
      invariant 2 <= i <= 32 && |powers| == 31
      invariant forall k :: 1 <= k < i && k < 31 ==> powers[k] == Power(p, k)
      invariant i == 32 ==> powers[0] == Power(p, 31)
    {
      var values := MatMul(powers[i - 1], p);
      if i < |powers| {
        powers := powers[i := values];
      } else {
        powers := powers[0 := values];
      }
      i := i + 1;
    }
    t := powers;
  }

  /** The table as the construction fills it. */
  lemma PowerTableRecurrence(p: Matrix)
    ensures PowerTable(p)[1] == p
    ensures forall i :: 2 <= i < 31 ==> PowerTable(p)[i] == MatMul(PowerTable(p)[i - 1], p)
    ensures PowerTable(p)[0] == MatMul(PowerTable(p)[30], p)
  {
  }

  /** `p^a * p^b == p^(a+b)`. */
  lemma {:induction false} PowerAdd(p: Matrix, a: nat, b: nat)
    requires a >= 1 && b >= 1
    ensures MatMul(Power(p, a), Power(p, b)) == Power(p, a + b)
    decreases b
  {
    if b > 1 {
      PowerAdd(p, a, b - 1);
      MatMulAssoc(Power(p, a), Power(p, b - 1), p);
    }
  }

  /** The powers of a matrix whose rows are elements have rows that are elements. */
  lemma {:induction false} PowerBound(p: Matrix, k: nat)
    requires k >= 1 && RowsAreElems(p)
    ensures RowsAreElems(Power(p, k))
  {
    if k > 1 {
      PowerBound(p, k - 1);
      MatMulBound(Power(p, k - 1), p);
    }
  }

  /* ---------------------------------------------------------------------- */
  /* The powers of the default primitive                                     */
  /* ---------------------------------------------------------------------- */

  /** The table of powers of the default primitive. */
  const Powers: seq<Matrix> := PowerTable(Primitive)

  /** The default primitive as 5-bit vectors. */
  const PrimitiveBv: BvMatrix := BvMatrix(0x01, 0x11, 0x08, 0x05, 0x03)

  /** `Primitive^k` computed on 5-bit vectors. */
  function PowerBv(k: nat): BvMatrix
    requires k >= 1
  {
    if k == 1 then PrimitiveBv else MatMulBv(PowerBv(k - 1), PrimitiveBv)
  }

  lemma PrimitiveAgrees()
    ensures MatrixAgrees(Primitive, PrimitiveBv)
  {
  }

  lemma {:induction false} PowerAgrees(k: nat)
    requires k >= 1
    ensures MatrixAgrees(Power(Primitive, k), PowerBv(k))
  {
    PrimitiveAgrees();
    if k > 1 {
      PowerAgrees(k - 1);
      MatMulAgrees(Power(Primitive, k - 1), PowerBv(k - 1), Primitive, PrimitiveBv);
    }
  }

  /** Slot `k` of the default table in 5-bit form, spelled out: the powers
      of the primitive one after the other, with the 31st, the identity, in
      slot 0. */
  function SlotBv(k: nat): BvMatrix
    requires k < Cardinal - 1
  {
    if k == 0 then IdentityBv
    else if k == 1 then PrimitiveBv
    else if k == 2 then BvMatrix(3, 2, 17, 11, 6)
    else if k == 3 then BvMatrix(6, 5, 2, 23, 13)
    else if k == 4 then BvMatrix(13, 11, 5, 15, 26)
    else if k == 5 then BvMatrix(26, 23, 11, 31, 21)
    else if k == 6 then BvMatrix(21, 15, 23, 30, 10)
    else if k == 7 then BvMatrix(10, 31, 15, 29, 20)
    else if k == 8 then BvMatrix(20, 30, 31, 27, 9)
    else if k == 9 then BvMatrix(9, 29, 30, 22, 18)
    else if k == 10 then BvMatrix(18, 27, 29, 12, 4)
    else if k == 11 then BvMatrix(4, 22, 27, 25, 8)
    else if k == 12 then BvMatrix(8, 12, 22, 19, 17)
    else if k == 13 then BvMatrix(17, 25, 12, 7, 2)
    else if k == 14 then BvMatrix(2, 19, 25, 14, 5)
    else if k == 15 then BvMatrix(5, 7, 19, 28, 11)
    else if k == 16 then BvMatrix(11, 14, 7, 24, 23)
    else if k == 17 then BvMatrix(23, 28, 14, 16, 15)
    else if k == 18 then BvMatrix(15, 24, 28, 1, 31)
    else if k == 19 then BvMatrix(31, 16, 24, 3, 30)
    else if k == 20 then BvMatrix(30, 1, 16, 6, 29)
    else if k == 21 then BvMatrix(29, 3, 1, 13, 27)
    else if k == 22 then BvMatrix(27, 6, 3, 26, 22)
    else if k == 23 then BvMatrix(22, 13, 6, 21, 12)
    else if k == 24 then BvMatrix(12, 26, 13, 10, 25)
    else if k == 25 then BvMatrix(25, 21, 26, 20, 19)
    else if k == 26 then BvMatrix(19, 10, 21, 9, 7)
    else if k == 27 then BvMatrix(7, 20, 10, 18, 14)
    else if k == 28 then BvMatrix(14, 9, 20, 4, 28)
    else if k == 29 then BvMatrix(28, 18, 9, 8, 24)
    else BvMatrix(24, 4, 18, 17, 16)
  }

  /** `SlotBvStep` for slots 1 to 3. */
  lemma SlotBvSteps1To3(k: nat)
    requires 1 <= k <= 3
    ensures MatMulBv(SlotBv(k), PrimitiveBv) == SlotBv((k + 1) % (Cardinal - 1))
  {
    if k == 1 {
      assert SlotBv(1) == BvMatrix(1, 17, 8, 5, 3);
      assert MatMulBv(BvMatrix(1, 17, 8, 5, 3), PrimitiveBv) == BvMatrix(3, 2, 17, 11, 6);
      assert SlotBv(2) == BvMatrix(3, 2, 17, 11, 6);
    } else if k == 2 {
      assert SlotBv(2) == BvMatrix(3, 2, 17, 11, 6);
      assert MatMulBv(BvMatrix(3, 2, 17, 11, 6), PrimitiveBv) == BvMatrix(6, 5, 2, 23, 13);
      assert SlotBv(3) == BvMatrix(6, 5, 2, 23, 13);
    } else {
      assert k == 3;
      assert SlotBv(3) == BvMatrix(6, 5, 2, 23, 13);
      assert MatMulBv(BvMatrix(6, 5, 2, 23, 13), PrimitiveBv) == BvMatrix(13, 11, 5, 15, 26);
      assert SlotBv(4) == BvMatrix(13, 11, 5, 15, 26);
    }
  }

  /** `SlotBvStep` for slots 4 to 6. */
  lemma SlotBvSteps4To6(k: nat)
    requires 4 <= k <= 6
    ensures MatMulBv(SlotBv(k), PrimitiveBv) == SlotBv((k + 1) % (Cardinal - 1))
  {
    if k == 4 {
      assert SlotBv(4) == BvMatrix(13, 11, 5, 15, 26);
      assert MatMulBv(BvMatrix(13, 11, 5, 15, 26), PrimitiveBv) == BvMatrix(26, 23, 11, 31, 21);
      assert SlotBv(5) == BvMatrix(26, 23, 11, 31, 21);
    } else if k == 5 {
      assert SlotBv(5) == BvMatrix(26, 23, 11, 31, 21);
      assert MatMulBv(BvMatrix(26, 23, 11, 31, 21), PrimitiveBv) == BvMatrix(21, 15, 23, 30, 10);
      assert SlotBv(6) == BvMatrix(21, 15, 23, 30, 10);
    } else {
      assert k == 6;
      assert SlotBv(6) == BvMatrix(21, 15, 23, 30, 10);
      assert MatMulBv(BvMatrix(21, 15, 23, 30, 10), PrimitiveBv) == BvMatrix(10, 31, 15, 29, 20);
      assert SlotBv(7) == BvMatrix(10, 31, 15, 29, 20);
    }
  }

  /** `SlotBvStep` for slots 7 to 9. */
  lemma SlotBvSteps7To9(k: nat)
    requires 7 <= k <= 9
    ensures MatMulBv(SlotBv(k), PrimitiveBv) == SlotBv((k + 1) % (Cardinal - 1))
  {
    if k == 7 {
      assert SlotBv(7) == BvMatrix(10, 31, 15, 29, 20);
      assert MatMulBv(BvMatrix(10, 31, 15, 29, 20), PrimitiveBv) == BvMatrix(20, 30, 31, 27, 9);
      assert SlotBv(8) == BvMatrix(20, 30, 31, 27, 9);
    } else if k == 8 {
      assert SlotBv(8) == BvMatrix(20, 30, 31, 27, 9);
      assert MatMulBv(BvMatrix(20, 30, 31, 27, 9), PrimitiveBv) == BvMatrix(9, 29, 30, 22, 18);
      assert SlotBv(9) == BvMatrix(9, 29, 30, 22, 18);
    } else {
      assert k == 9;
      assert SlotBv(9) == BvMatrix(9, 29, 30, 22, 18);
      assert MatMulBv(BvMatrix(9, 29, 30, 22, 18), PrimitiveBv) == BvMatrix(18, 27, 29, 12, 4);
      assert SlotBv(10) == BvMatrix(18, 27, 29, 12, 4);
    }
  }

  /** `SlotBvStep` for slots 10 to 12. */
  lemma SlotBvSteps10To12(k: nat)
    requires 10 <= k <= 12
    ensures MatMulBv(SlotBv(k), PrimitiveBv) == SlotBv((k + 1) % (Cardinal - 1))
  {
    if k == 10 {
      assert SlotBv(10) == BvMatrix(18, 27, 29, 12, 4);
      assert MatMulBv(BvMatrix(18, 27, 29, 12, 4), PrimitiveBv) == BvMatrix(4, 22, 27, 25, 8);
      assert SlotBv(11) == BvMatrix(4, 22, 27, 25, 8);
    } else if k == 11 {
      assert SlotBv(11) == BvMatrix(4, 22, 27, 25, 8);
      assert MatMulBv(BvMatrix(4, 22, 27, 25, 8), PrimitiveBv) == BvMatrix(8, 12, 22, 19, 17);
      assert SlotBv(12) == BvMatrix(8, 12, 22, 19, 17);
    } else {
      assert k == 12;
      assert SlotBv(12) == BvMatrix(8, 12, 22, 19, 17);
      assert MatMulBv(BvMatrix(8, 12, 22, 19, 17), PrimitiveBv) == BvMatrix(17, 25, 12, 7, 2);
      assert SlotBv(13) == BvMatrix(17, 25, 12, 7, 2);
    }
  }

  /** `SlotBvStep` for slots 13 to 15. */
  lemma SlotBvSteps13To15(k: nat)
    requires 13 <= k <= 15
    ensures MatMulBv(SlotBv(k), PrimitiveBv) == SlotBv((k + 1) % (Cardinal - 1))
  {
    if k == 13 {
      assert SlotBv(13) == BvMatrix(17, 25, 12, 7, 2);
      assert MatMulBv(BvMatrix(17, 25, 12, 7, 2), PrimitiveBv) == BvMatrix(2, 19, 25, 14, 5);
      assert SlotBv(14) == BvMatrix(2, 19, 25, 14, 5);
    } else if k == 14 {
      assert SlotBv(14) == BvMatrix(2, 19, 25, 14, 5);
      assert MatMulBv(BvMatrix(2, 19, 25, 14, 5), PrimitiveBv) == BvMatrix(5, 7, 19, 28, 11);
      assert SlotBv(15) == BvMatrix(5, 7, 19, 28, 11);
    } else {
      assert k == 15;
      assert SlotBv(15) == BvMatrix(5, 7, 19, 28, 11);
      assert MatMulBv(BvMatrix(5, 7, 19, 28, 11), PrimitiveBv) == BvMatrix(11, 14, 7, 24, 23);
      assert SlotBv(16) == BvMatrix(11, 14, 7, 24, 23);
    }
  }

  /** `SlotBvStep` for slots 16 to 18. */
  lemma SlotBvSteps16To18(k: nat)
    requires 16 <= k <= 18
    ensures MatMulBv(SlotBv(k), PrimitiveBv) == SlotBv((k + 1) % (Cardinal - 1))
  {
    if k == 16 {
      assert SlotBv(16) == BvMatrix(11, 14, 7, 24, 23);
      assert MatMulBv(BvMatrix(11, 14, 7, 24, 23), PrimitiveBv) == BvMatrix(23, 28, 14, 16, 15);
      assert SlotBv(17) == BvMatrix(23, 28, 14, 16, 15);
    } else if k == 17 {
      assert SlotBv(17) == BvMatrix(23, 28, 14, 16, 15);
      assert MatMulBv(BvMatrix(23, 28, 14, 16, 15), PrimitiveBv) == BvMatrix(15, 24, 28, 1, 31);
      assert SlotBv(18) == BvMatrix(15, 24, 28, 1, 31);
    } else {
      assert k == 18;
      assert SlotBv(18) == BvMatrix(15, 24, 28, 1, 31);
      assert MatMulBv(BvMatrix(15, 24, 28, 1, 31), PrimitiveBv) == BvMatrix(31, 16, 24, 3, 30);
      assert SlotBv(19) == BvMatrix(31, 16, 24, 3, 30);
    }
  }

  /** `SlotBvStep` for slots 19 to 21. */
  lemma SlotBvSteps19To21(k: nat)
    requires 19 <= k <= 21
    ensures MatMulBv(SlotBv(k), PrimitiveBv) == SlotBv((k + 1) % (Cardinal - 1))
  {
    if k == 19 {
      assert SlotBv(19) == BvMatrix(31, 16, 24, 3, 30);
      assert MatMulBv(BvMatrix(31, 16, 24, 3, 30), PrimitiveBv) == BvMatrix(30, 1, 16, 6, 29);
      assert SlotBv(20) == BvMatrix(30, 1, 16, 6, 29);
    } else if k == 20 {
      assert SlotBv(20) == BvMatrix(30, 1, 16, 6, 29);
      assert MatMulBv(BvMatrix(30, 1, 16, 6, 29), PrimitiveBv) == BvMatrix(29, 3, 1, 13, 27);
      assert SlotBv(21) == BvMatrix(29, 3, 1, 13, 27);
    } else {
      assert k == 21;
      assert SlotBv(21) == BvMatrix(29, 3, 1, 13, 27);
      assert MatMulBv(BvMatrix(29, 3, 1, 13, 27), PrimitiveBv) == BvMatrix(27, 6, 3, 26, 22);
      assert SlotBv(22) == BvMatrix(27, 6, 3, 26, 22);
    }
  }

  /** `SlotBvStep` for slots 22 to 24. */
  lemma SlotBvSteps22To24(k: nat)
    requires 22 <= k <= 24
    ensures MatMulBv(SlotBv(k), PrimitiveBv) == SlotBv((k + 1) % (Cardinal - 1))
  {
    if k == 22 {
      assert SlotBv(22) == BvMatrix(27, 6, 3, 26, 22);
      assert MatMulBv(BvMatrix(27, 6, 3, 26, 22), PrimitiveBv) == BvMatrix(22, 13, 6, 21, 12);
      assert SlotBv(23) == BvMatrix(22, 13, 6, 21, 12);
    } else if k == 23 {
      assert SlotBv(23) == BvMatrix(22, 13, 6, 21, 12);
      assert MatMulBv(BvMatrix(22, 13, 6, 21, 12), PrimitiveBv) == BvMatrix(12, 26, 13, 10, 25);
      assert SlotBv(24) == BvMatrix(12, 26, 13, 10, 25);
    } else {
      assert k == 24;
      assert SlotBv(24) == BvMatrix(12, 26, 13, 10, 25);
      assert MatMulBv(BvMatrix(12, 26, 13, 10, 25), PrimitiveBv) == BvMatrix(25, 21, 26, 20, 19);
      assert SlotBv(25) == BvMatrix(25, 21, 26, 20, 19);
    }
  }

  /** `SlotBvStep` for slots 25 to 27. */
  lemma SlotBvSteps25To27(k: nat)
    requires 25 <= k <= 27
    ensures MatMulBv(SlotBv(k), PrimitiveBv) == SlotBv((k + 1) % (Cardinal - 1))
  {
    if k == 25 {
      assert SlotBv(25) == BvMatrix(25, 21, 26, 20, 19);
      assert MatMulBv(BvMatrix(25, 21, 26, 20, 19), PrimitiveBv) == BvMatrix(19, 10, 21, 9, 7);
      assert SlotBv(26) == BvMatrix(19, 10, 21, 9, 7);
    } else if k == 26 {
      assert SlotBv(26) == BvMatrix(19, 10, 21, 9, 7);
      assert MatMulBv(BvMatrix(19, 10, 21, 9, 7), PrimitiveBv) == BvMatrix(7, 20, 10, 18, 14);
      assert SlotBv(27) == BvMatrix(7, 20, 10, 18, 14);
    } else {
      assert k == 27;
      assert SlotBv(27) == BvMatrix(7, 20, 10, 18, 14);
      assert MatMulBv(BvMatrix(7, 20, 10, 18, 14), PrimitiveBv) == BvMatrix(14, 9, 20, 4, 28);
      assert SlotBv(28) == BvMatrix(14, 9, 20, 4, 28);
    }
  }

  /** `SlotBvStep` for slots 28 to 30. */
  lemma SlotBvSteps28To30(k: nat)
    requires 28 <= k <= 30
    ensures MatMulBv(SlotBv(k), PrimitiveBv) == SlotBv((k + 1) % (Cardinal - 1))
  {
    if k == 28 {
      assert SlotBv(28) == BvMatrix(14, 9, 20, 4, 28);
      assert MatMulBv(BvMatrix(14, 9, 20, 4, 28), PrimitiveBv) == BvMatrix(28, 18, 9, 8, 24);
      assert SlotBv(29) == BvMatrix(28, 18, 9, 8, 24);
    } else if k == 29 {
      assert SlotBv(29) == BvMatrix(28, 18, 9, 8, 24);
      assert MatMulBv(BvMatrix(28, 18, 9, 8, 24), PrimitiveBv) == BvMatrix(24, 4, 18, 17, 16);
      assert SlotBv(30) == BvMatrix(24, 4, 18, 17, 16);
    } else {
      assert k == 30;
      assert SlotBv(30) == BvMatrix(24, 4, 18, 17, 16);
      assert MatMulBv(BvMatrix(24, 4, 18, 17, 16), PrimitiveBv) == BvMatrix(16, 8, 4, 2, 1);
      assert SlotBv(0) == BvMatrix(16, 8, 4, 2, 1);
    }
  }

  /** One more factor of the primitive moves to the next slot. */
  lemma SlotBvStep(k: nat)
    requires 1 <= k < Cardinal - 1
    ensures MatMulBv(SlotBv(k), PrimitiveBv) == SlotBv((k + 1) % (Cardinal - 1))
  {
    if k <= 3 {
      SlotBvSteps1To3(k);
    } else if k <= 6 {
      SlotBvSteps4To6(k);
    } else if k <= 9 {
      SlotBvSteps7To9(k);
    } else if k <= 12 {
      SlotBvSteps10To12(k);
    } else if k <= 15 {
      SlotBvSteps13To15(k);
    } else if k <= 18 {
      SlotBvSteps16To18(k);
    } else if k <= 21 {
      SlotBvSteps19To21(k);
    } else if k <= 24 {
      SlotBvSteps22To24(k);
    } else if k <= 27 {
      SlotBvSteps25To27(k);
    } else {
      SlotBvSteps28To30(k);
    }
  }

  /** Each power of the primitive up to the 31st is the spelled-out slot. */
  lemma {:induction false} PowerBvSlots(k: nat)
    requires 1 <= k <= Cardinal - 1
    ensures PowerBv(k) == SlotBv(k % (Cardinal - 1))
  {
    if k == 1 {
      assert k % (Cardinal - 1) == 1;
      assert PowerBv(1) == SlotBv(1);
    } else {
      var j := k - 1;
      assert j % (Cardinal - 1) == j && (j + 1) % (Cardinal - 1) == k % (Cardinal - 1);
      PowerBvSlots(j);
      SlotBvStep(j);
    }
  }

  /** The 31st power of the primitive in 5-bit form is the identity. */
  lemma PowerBvCycle()
    ensures PowerBv(31) == IdentityBv
  {
    PowerBvSlots(31);
  }

  /** Slot `k` of the default table agrees with its spelled-out 5-bit form. */
  lemma SlotAgrees(k: nat)
    requires k < Cardinal - 1
    ensures MatrixAgrees(Powers[k], SlotBv(k))
  {
    var e := SlotExponent(k);
    assert e % (Cardinal - 1) == k by {
      if k == 0 {
        assert e == 31;
      } else {
        assert e == k;
      }
    }
    PowerBvSlots(e);
    PowerAgrees(e);
    assert Powers[k] == Power(Primitive, e);
  }

  /** The default primitive has order 31: its 31st power is the identity. */
  lemma PrimitiveOrder()
    ensures Power(Primitive, 31) == Identity
  {
    PowerAgrees(31);
    PowerBvCycle();
    IdentityAgrees();
    MatrixAgreesEqual(Power(Primitive, 31), Identity, IdentityBv);
  }

  /** The exponents of two slots add up to the exponent of the slot of
      their sum, or to 31 more than it. */
  lemma SlotExponents(i: nat, j: nat)
    requires i < 31 && j < 31
    ensures SlotExponent(i) + SlotExponent(j) == SlotExponent((i + j) % 31)
         || SlotExponent(i) + SlotExponent(j) == SlotExponent((i + j) % 31) + 31
  {
  }

  /** Multiplying by `p^a` and then by `p^b` is multiplying by `p^(a+b)`. */
  lemma TimesPowers(p: Matrix, x: nat, a: nat, b: nat, n: nat)
    requires a >= 1 && b >= 1 && n == a + b
    ensures RowTimes(RowTimes(x, Power(p, a)), Power(p, b)) == RowTimes(x, Power(p, n))
  {
    RowTimesAssoc(x, Power(p, a), Power(p, b));
    PowerAdd(p, a, b);
  }

  /** For a primitive of order 31, multiplying by `p^(c+31)` is multiplying by `p^c`. */
  lemma TimesFullCycle(p: Matrix, x: nat, c: nat, n: nat)
    requires RowsAreElems(p) && Power(p, 31) == Identity && IsElem(x) && c >= 1 && n == c + 31
    ensures RowTimes(x, Power(p, n)) == RowTimes(x, Power(p, c))
  {
    TimesPowers(p, x, c, 31, n);
    PowerBound(p, c);
    RowTimesBound(x, Power(p, c));
    RowTimesIdentity(RowTimes(x, Power(p, c)));
  }

  /** Multiplying by two slots of the table of a primitive of order 31 is
      multiplying by the slot of the sum of their exponents modulo 31. */
  lemma SlotShift(p: Matrix, x: nat, i: nat, j: nat)
    requires RowsAreElems(p) && Power(p, 31) == Identity
    requires IsElem(x) && i < 31 && j < 31
    ensures RowTimes(RowTimes(x, Slot(p, i)), Slot(p, j)) == RowTimes(x, Slot(p, (i + j) % 31))
  {
    var a, b, c := SlotExponent(i), SlotExponent(j), SlotExponent((i + j) % 31);
    SlotExponents(i, j);
    if a + b == c {
      TimesPowers(p, x, a, b, c);
    } else {
      TimesPowers(p, x, a, b, c + 31);
      TimesFullCycle(p, x, c, c + 31);
    }
  }

  /** A table of 31 matrices whose rows are elements. */
  ghost predicate ElemTable(t: seq<Matrix>) {
    |t| == Cardinal - 1 && forall k :: 0 <= k < |t| ==> RowsAreElems(t[k])
  }

  /** A table that behaves like the powers of an element of order 31: slot 0
      is the identity, and multiplying by two slots is multiplying by the
      slot of the sum of their indices modulo 31. */
  ghost predicate CyclicTable(t: seq<Matrix>) {
    && ElemTable(t)
    && t[0] == Identity
    && forall x: nat, i: nat, j: nat | IsElem(x) && i < Cardinal - 1 && j < Cardinal - 1 ::
         RowTimes(RowTimes(x, t[i]), t[j]) == RowTimes(x, t[(i + j) % (Cardinal - 1)])
  }

  /** The table of powers of a primitive of order 31 is cyclic. */
  lemma PowerTableCyclic(p: Matrix)
    requires RowsAreElems(p) && Power(p, 31) == Identity
    ensures CyclicTable(PowerTable(p))
  {
    var t := PowerTable(p);
    forall k | 0 <= k < |t|
      ensures RowsAreElems(t[k])
    {
      PowerBound(p, SlotExponent(k));
    }
    forall x: nat, i: nat, j: nat | IsElem(x) && i < Cardinal - 1 && j < Cardinal - 1
      ensures RowTimes(RowTimes(x, t[i]), t[j]) == RowTimes(x, t[(i + j) % (Cardinal - 1)])
    {
      SlotShift(p, x, i, j);
    }
  }

  /** The table of the default instance is cyclic. */
  lemma PowersCyclic()
    ensures CyclicTable(Powers)
  {
    PrimitiveOrder();
    PrimitiveAgrees();
    PowerTableCyclic(Primitive);
  }

  /* ---------------------------------------------------------------------- */
  /* The check character                                                     */
  /* ---------------------------------------------------------------------- */

  /** Why no check character could be computed: a payload character is not a
      symbol of the alphabet, or the alphabet has no symbol for the result. */
  datatype CheckError = NotASymbol(symbol: char) | NoSymbolFor(value: int)

  /** Java's `/` on `int`: the quotient is rounded toward zero. */
  function JavaQuot(a: int, b: int): int
    requires b > 0
  {
    if a >= 0 then a / b else -((-a) / b)
  }

  /** Java's `%` on `int`: the remainder left by `JavaQuot`, so that it takes
      the sign of the dividend. */
  function JavaRem(a: int, b: int): (r: int)
    requires b > 0
    ensures -b < r < b
    ensures JavaQuot(a, b) * b + r == a
    ensures a >= 0 ==> r >= 0
    ensures a < 0 ==> r <= 0
  {
    if a >= 0 then a % b else -((-a) % b)
  }

  /** The exponent the weighted sum is finally multiplied by: 30 - len
      modulo 31, in [0, 31). */
  function Exponent(len: nat): (e: nat)
    ensures e < Cardinal - 1
  {
    var e := JavaRem(Cardinal - len - 2, Cardinal - 1);
    if e < 0 then e + (Cardinal - 1) else e
  }

  /** The final exponent and the slot of the check character add up to a
      multiple of 31. */
  lemma ExponentCancels(len: nat)
    ensures (Exponent(len) + (len + 1) % (Cardinal - 1)) % (Cardinal - 1) == 0
  {
    if len < 30 {
      assert Exponent(len) + (len + 1) % 31 == 31;
    } else if len == 30 {
      assert Exponent(len) == 0 && (len + 1) % 31 == 0;
    } else {
      var q, m := (len - 30) / 31, (len - 30) % 31;
      assert len - 30 == 31 * q + m && 0 <= m < 31;
      assert JavaRem(Cardinal - len - 2, Cardinal - 1) == -m;
      assert len + 1 == 31 * (q + 1) + m;
      assert (len + 1) % 31 == m;
      assert Exponent(len) + m == 0 || Exponent(len) + m == 31;
    }
  }

  /** The weighted sum of the payload: the XOR over `i` of the value of
      character `i` times table slot `(i + 1) % 31`. Characters are read
      in order, and the first that is not a symbol is the error; nothing is
      ignored. */
  function WeightedSum(table: seq<Matrix>, payload: string, a: Alphabet): Result<nat, CheckError>
    requires |table| == Cardinal - 1
    decreases |payload|
  {
    if payload == [] then Success(0)
    else
      match WeightedSum(table, payload[..|payload| - 1], a)
      case Failure(e) => Failure(e)
      case Success(sum) =>
        var c := payload[|payload| - 1];
        match a.toIndex(c)
        case None => Failure(NotASymbol(c))
        case Some(v) => Success(Xor(sum, RowTimes(v, table[|payload| % (Cardinal - 1)])))
  }

  /** The check character of a payload for the table of some primitive. */
  function ComputeWith(table: seq<Matrix>, payload: string, a: Alphabet): Result<char, CheckError>
    requires |table| == Cardinal - 1
  {
    match WeightedSum(table, payload, a)
    case Failure(e) => Failure(e)
    case Success(sum) =>
      var v := RowTimes(sum, table[Exponent(|payload|)]);
      match a.toChar(v)
      case None => Failure(NoSymbolFor(v))
      case Some(c) => Success(c)
  }

  /** The check character of the default instance. */
  function Compute(payload: string, a: Alphabet): Result<char, CheckError> {
    ComputeWith(Powers, payload, a)
  }

  /** The computation as the original performs it: one pass accumulating the
      weighted sum, then the final multiplication. */
  method ComputeLoop(table: seq<Matrix>, payload: string, a: Alphabet) returns (r: Result<char, CheckError>)
    requires |table| == Cardinal - 1
    ensures r == ComputeWith(table, payload, a)
  {
    var len := |payload|;
    var sum := 0;
    var i := 0;
    while i < len
      invariant 0 <= i <= len
      invariant WeightedSum(table, payload[..i], a) == Success(sum)
    {
      assert payload[..i + 1][..i] == payload[..i];
      var value := a.toIndex(payload[i]);
      if value.None? {
        SumFailurePersists(table, payload, i + 1, a);
        assert WeightedSum(table, payload, a) == Failure(NotASymbol(payload[i]));
        return Failure(NotASymbol(payload[i]));
      }
      sum := Xor(sum, RowTimes(value.value, table[(i + 1) % (Cardinal - 1)]));
      i := i + 1;
    }
    assert payload[..i] == payload;
    assert WeightedSum(table, payload, a) == Success(sum);
    var exp := JavaRem(Cardinal - len - 2, Cardinal - 1);
    if exp < 0 {
      exp := exp + (Cardinal - 1);
    }
    assert exp == Exponent(len);
    var v := RowTimes(sum, table[exp]);
    match a.toChar(v)
    case None => return Failure(NoSymbolFor(v));
    case Some(c) => return Success(c);
  }

  /** The first character that is not a symbol is the error of the whole payload. */
  lemma {:induction false} SumFailurePersists(table: seq<Matrix>, payload: string, i: nat, a: Alphabet)
    requires |table| == Cardinal - 1
    requires i <= |payload| && WeightedSum(table, payload[..i], a).Failure?
    ensures WeightedSum(table, payload, a) == WeightedSum(table, payload[..i], a)
    decreases |payload| - i
  {
    if i < |payload| {
      assert payload[..i + 1][..i] == payload[..i];
      SumFailurePersists(table, payload, i + 1, a);
    } else {
      assert payload[..i] == payload;
    }
  }

  /** As written: a payload is valid when its check character is the literal
      "A", whatever the alphabet. */
  function Validate(payload: string, a: Alphabet): Result<bool, CheckError> {
    match Compute(payload, a)
    case Failure(e) => Failure(e)
    case Success(c) => Success(c == 'A')
  }

  /** As intended: a payload is valid when its check character is the
      alphabet's symbol for 0, the character of a vanishing sum. */
  function ValidateIntended(payload: string, a: Alphabet): Result<bool, CheckError> {
    match Compute(payload, a)
    case Failure(e) => Failure(e)
    case Success(c) => Success(a.toChar(0) == Some(c))
  }

  /* ---------------------------------------------------------------------- */
  /* Properties                                                              */
  /* ---------------------------------------------------------------------- */

  /** Every character of the payload is a symbol of the alphabet. */
  ghost predicate AllSymbols(payload: string, a: Alphabet) {
    forall i :: 0 <= i < |payload| ==> a.toIndex(payload[i]).Some?
  }

  /** The weighted sum is defined exactly on payloads of symbols, and is then
      an element. */
  lemma {:induction false} WeightedSumDefined(table: seq<Matrix>, payload: string, a: Alphabet)
    requires ElemTable(table)
    ensures WeightedSum(table, payload, a).Success? <==> AllSymbols(payload, a)
    ensures WeightedSum(table, payload, a).Success? ==> IsElem(WeightedSum(table, payload, a).value)
    decreases |payload|
  {
    if payload != [] {
      var init := payload[..|payload| - 1];
      WeightedSumDefined(table, init, a);
      assert forall i :: 0 <= i < |init| ==> init[i] == payload[i];
      if WeightedSum(table, init, a).Success? {
        var sum := WeightedSum(table, init, a).value;
        var row := table[|payload| % (Cardinal - 1)];
        if a.toIndex(payload[|payload| - 1]).Some? {
          var v := a.toIndex(payload[|payload| - 1]).value;
          RowTimesBound(v, row);
          XorBelow(sum, RowTimes(v, row), 5);
        }
      }
    }
  }

  /** Over an alphabet that keeps the contract, a check character exists
      exactly for payloads of symbols: whitespace and every other character
      that is not a symbol make the computation fail, as does any character
      after it. */
  lemma ComputeDefined(table: seq<Matrix>, payload: string, a: Alphabet)
    requires ElemTable(table) && WellFormed(a)
    ensures ComputeWith(table, payload, a).Success? <==> AllSymbols(payload, a)
  {
    WeightedSumDefined(table, payload, a);
    if AllSymbols(payload, a) {
      var sum := WeightedSum(table, payload, a).value;
      RowTimesBound(sum, table[Exponent(|payload|)]);
    }
  }

  /** The first character that is not a symbol is reported. */
  lemma ComputeRejects(table: seq<Matrix>, payload: string, i: nat, a: Alphabet)
    requires ElemTable(table)
    requires i < |payload| && AllSymbols(payload[..i], a) && a.toIndex(payload[i]).None?
    ensures ComputeWith(table, payload, a) == Failure(NotASymbol(payload[i]))
  {
    WeightedSumDefined(table, payload[..i], a);
    assert payload[..i + 1][..i] == payload[..i];
    SumFailurePersists(table, payload, i + 1, a);
  }

  /** Appending the check character cancels the weighted sum: the sum with
      the check character is 0. */
  lemma CheckCancels(table: seq<Matrix>, payload: string, a: Alphabet)
    requires CyclicTable(table) && WellFormed(a) && AllSymbols(payload, a)
    ensures ComputeWith(table, payload, a).Success?
    ensures WeightedSum(table, payload + [ComputeWith(table, payload, a).value], a) == Success(0)
  {
    ComputeDefined(table, payload, a);
    WeightedSumDefined(table, payload, a);
    var n := |payload|;
    var sum := WeightedSum(table, payload, a).value;
    var e := Exponent(n);
    var w := RowTimes(sum, table[e]);
    var c := ComputeWith(table, payload, a).value;
    assert a.toIndex(c) == Some(w);
    var s := payload + [c];
    assert s[..|s| - 1] == payload;
    assert WeightedSum(table, s, a) == Success(Xor(sum, RowTimes(w, table[(n + 1) % 31])));
    ExponentCancels(n);
    assert RowTimes(w, table[(n + 1) % 31]) == RowTimes(sum, table[0]);
    RowTimesIdentity(sum);
    XorSelf(sum);
  }

  /** Self-consistency, as intended: a payload of symbols followed by its
      check character is valid, for every alphabet that keeps the contract
      and every length, multiples of 31 included. */
  lemma ValidateIntendedOwnCheck(payload: string, a: Alphabet)
    requires WellFormed(a) && AllSymbols(payload, a)
    ensures Compute(payload, a).Success?
    ensures ValidateIntended(payload + [Compute(payload, a).value], a) == Success(true)
  {
    PowersCyclic();
    CheckCancels(Powers, payload, a);
    var s := payload + [Compute(payload, a).value];
    var row := Powers[Exponent(|s|)];
    RowTimesZero(row);
    assert Compute(s, a) == Success(a.toChar(0).value);
  }

  /** `Validate` compares with the literal "A": it is true exactly when the
      check character is "A". */
  lemma ValidateIsCheckA(payload: string, a: Alphabet)
    requires WellFormed(a) && AllSymbols(payload, a)
    ensures Compute(payload, a).Success?
    ensures Validate(payload, a) == Success(Compute(payload, a).value == 'A')
  {
    PowersCyclic();
    ComputeDefined(Powers, payload, a);
  }

  /** As written, a payload followed by its own check character is rejected
      by every alphabet that keeps the contract but has a symbol other than
      "A" for 0. */
  lemma ValidateRejectsOwnCheck(payload: string, a: Alphabet)
    requires WellFormed(a) && AllSymbols(payload, a) && a.toChar(0) != Some('A')
    ensures Compute(payload, a).Success?
    ensures Validate(payload + [Compute(payload, a).value], a) == Success(false)
  {
    ValidateIntendedOwnCheck(payload, a);
  }

  /** For the default alphabet, whose symbol for 0 is "A", the comparison
      with the literal is the intended one: every string of its symbols
      followed by its check character is valid, for every length. */
  lemma ValidateOwnCheckRfc(payload: string)
    requires AllSymbols(payload, Rfc())
    ensures Compute(payload, Rfc()).Success?
    ensures Validate(payload + [Compute(payload, Rfc()).value], Rfc()) == Success(true)
  {
    RfcWellFormed();
    ValidateIntendedOwnCheck(payload, Rfc());
    assert Rfc().toChar(0) == Some('A');
  }

  /* ---------------------------------------------------------------------- */
  /* A concrete alphabet that shows the literal comparison wrong              */
  /* ---------------------------------------------------------------------- */

  /** The default symbols rotated by one place: index `i` is the default
      symbol for `i + 1` modulo 32, so 0 is "B" and 31 is "A". */
  function RotatedToChar(i: int): Option<char> {
    if 0 <= i < 32 then Some(SymbolFor((i + 1) % 32)) else None
  }

  /** The inverse of `RotatedToChar`. */
  function RotatedToIndex(c: char): Option<Index> {
    if IndexFor(c).Some? then Some(((IndexFor(c).value + 31) % 32) as Index) else None
  }

  /** The rotated alphabet, padded and ignoring whitespace like the default one. */
  function Rotated(): Alphabet {
    Alphabet(RotatedToChar, RotatedToIndex, IsWhitespace, '=')
  }

  /** `IndexFor` reads back `SymbolFor`. */
  lemma IndexForSymbolFor(i: Index)
    ensures IndexFor(SymbolFor(i)) == Some(i)
  {
  }

  /** `SymbolFor` reads back `IndexFor`. */
  lemma SymbolForIndexFor(c: char)
    requires IndexFor(c).Some?
    ensures SymbolFor(IndexFor(c).value) == c
  {
  }

  /** `RotatedToChar` reads back `RotatedToIndex`. */
  lemma RotatedReadBack(c: char)
    requires RotatedToIndex(c).Some?
    ensures RotatedToChar(RotatedToIndex(c).value) == Some(c)
  {
    var v: int := IndexFor(c).value;
    assert ((v + 31) % 32 + 1) % 32 == v;
    SymbolForIndexFor(c);
  }

  /** The rotated alphabet has a symbol exactly for 0 to 31. */
  lemma RotatedDomain()
    ensures forall i :: Rotated().toChar(i).Some? <==> 0 <= i < 32
  {
    var a := Rotated();
    assert a.toChar == RotatedToChar;
  }

  /** The rotated alphabet reads each of its symbols back as its index. */
  lemma RotatedSymbolsRead()
    ensures forall i :: Rotated().toChar(i).Some? <==> 0 <= i < 32
    ensures forall i: Index :: Rotated().toIndex(Rotated().toChar(i).value) == Some(i)
  {
    RotatedDomain();
    var a := Rotated();
    assert a.toChar == RotatedToChar && a.toIndex == RotatedToIndex;
    forall i: Index
      ensures RotatedToIndex(RotatedToChar(i).value) == Some(i)
    {
      IndexForSymbolFor((i + 1) % 32);
    }
  }

  /** The rotated alphabet spells each index it reads back as the character
      it was read from. */
  lemma RotatedIndicesSpelled()
    ensures forall c :: Rotated().toIndex(c).Some? ==> Rotated().toChar(Rotated().toIndex(c).value) == Some(c)
  {
    var a := Rotated();
    assert a.toChar == RotatedToChar && a.toIndex == RotatedToIndex;
    forall c | RotatedToIndex(c).Some?
      ensures RotatedToChar(RotatedToIndex(c).value) == Some(c)
    {
      RotatedReadBack(c);
    }
  }

  /** No symbol of the rotated alphabet is ignored. */
  lemma RotatedSymbolsKept()
    ensures forall c :: Rotated().toIndex(c).Some? ==> !Rotated().ignore(c)
  {
    var a := Rotated();
    assert a.toIndex == RotatedToIndex && a.ignore == IsWhitespace;
    forall c | RotatedToIndex(c).Some?
      ensures !IsWhitespace(c)
    {
      ToIndexIsIndexFor(c);
      IgnoreSparesSymbols(c);
    }
  }

  /** The padding of the rotated alphabet is neither a symbol nor ignored. */
  lemma RotatedPadApart()
    ensures Rotated().pad != NoPad ==> Rotated().toIndex(Rotated().pad).None? && !Rotated().ignore(Rotated().pad)
  {
    var a := Rotated();
    assert a.toIndex == RotatedToIndex && a.ignore == IsWhitespace && a.pad == '=';
    assert IndexFor('=').None?;
    IgnoreSparesSymbols('=');
  }

  /** The rotated alphabet keeps the alphabet contract. */
  lemma RotatedWellFormed()
    ensures WellFormed(Rotated())
  {
    RotatedDomain();
    RotatedSymbolsRead();
    RotatedIndicesSpelled();
    RotatedSymbolsKept();
    RotatedPadApart();
  }

  /** Under the rotated alphabet the empty payload has check character "B",
      yet "B", the empty payload followed by it, does not validate. */
  lemma RotatedRejectsOwnCheck()
    ensures Compute("", Rotated()) == Success('B')
    ensures Validate("B", Rotated()) == Success(false)
    ensures ValidateIntended("B", Rotated()) == Success(true)
  {
    var a := Rotated();
    assert a.toChar == RotatedToChar && a.toIndex == RotatedToIndex;
    assert RotatedToChar(0) == Some('B');
    assert RotatedToIndex('B') == Some(0);
    var t0, t1 := Powers[Exponent(0)], Powers[1];
    RowTimesZero(t0);
    assert ComputeWith(Powers, "", a) == Success('B');
    var s := "B";
    assert s[..0] == [];
    assert WeightedSum(Powers, s, a) == Success(Xor(0, RowTimes(0, t1)));
    RowTimesZero(t1);
    RowTimesZero(Powers[Exponent(1)]);
  }
}
