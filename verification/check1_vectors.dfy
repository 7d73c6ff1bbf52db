/*
  Evaluation of Base32Check1 on concrete payloads. A payload is checked a few
  symbols at a time against a `Run`, a record of each symbol's value and of
  the 5-bit weighted sum after it, which the verifier can evaluate on
  literals; `RunAgrees` carries the agreement of the recorded sums with
  `Check1.WeightedSum` over any payload. The test table of the checksum is
  derived from it in module Check1Table.
*/
module Check1Vectors {
  import opened Wrappers
  import opened Alphabets
  import opened GfMatrix
  import opened Rfc4648
  import opened Check1

  /** Slot `n` modulo 31 of the default table in 5-bit form. The reduction is
      by subtraction, so that a literal `n` evaluates. */
  function SlotAt(n: nat): BvMatrix
    decreases n
  {
    if n < 31 then SlotBv(n) else SlotAt(n - 31)
  }

  /** `SlotAt` agrees with the default power table at `n` modulo 31. */
  lemma {:induction false} SlotAtAgrees(n: nat)
    ensures MatrixAgrees(Powers[n % (Cardinal - 1)], SlotAt(n))
    decreases n
  {
    if n < 31 {
      assert n % (Cardinal - 1) == n;
      SlotAgrees(n);
    } else {
      SlotAtAgrees(n - 31);
      assert (n - 31) % (Cardinal - 1) == n % (Cardinal - 1);
    }
  }

  /** One more character: if the sum so far agrees with `u`, adding value
      `v` at position `n` agrees with the mirror's step. */
  lemma StepAgrees(sum: nat, u: bv5, v: nat, n: nat)
    requires Agrees(sum, u) && IsElem(v)
    ensures Agrees(Xor(sum, RowTimes(v, Powers[n % (Cardinal - 1)])), u ^ RowTimesBv(ElemBv(v), SlotAt(n)))
  {
    var k := n % (Cardinal - 1);
    ElemAgrees(v);
    SlotAtAgrees(n);
    RowTimesAgrees(v, ElemBv(v), Powers[k], SlotAt(n));
    XorAgrees(sum, u, RowTimes(v, Powers[k]), RowTimesBv(ElemBv(v), SlotAt(n)));
  }

  /** The weighted sum of `p` under the default table and alphabet is
      defined and agrees with `u`. */
  ghost predicate SumIs(p: string, u: bv5) {
    WeightedSum(Powers, p, Rfc()).Success? && Agrees(WeightedSum(Powers, p, Rfc()).value, u)
  }

  /** The empty payload sums to zero. */
  lemma EmptySum()
    ensures SumOf("", 0, 0)
  {
  }

  /** Bit `k` of a 5-bit vector. */
  predicate BvBit(x: bv5, k: nat)
    requires k < 5
  {
    (x >> k) & 1 == 1
  }

  /** Bit `k` of a 5-bit vector read as a number is bit `k` of the vector. */
  lemma {:induction false} HasBitOfVector(x: bv5, k: nat)
    requires k < 5
    ensures HasBit(x as int, k) <==> BvBit(x, k)
    decreases k
  {
    if k > 0 {
      HasBitOfVector(x >> 1, k - 1);
      assert (x >> 1) as int == x as int / 2;
      assert (x >> 1) >> (k - 1) == x >> k;
    } else {
      assert (x as int) % 2 == 1 <==> x & 1 == 1;
    }
  }

  /** The element of a 5-bit vector has the same bits. */
  lemma ElemBvOfVector(x: bv5)
    ensures ElemBv(x as int) == x
  {
    HasBitOfVector(x, 0);
    HasBitOfVector(x, 1);
    HasBitOfVector(x, 2);
    HasBitOfVector(x, 3);
    HasBitOfVector(x, 4);
  }

  /** Appending the symbol `c` of value `x` at position `n`, just after `p`,
      adds `x` times the slot of `n` to the sum of the result `q`. */
  lemma PushSymbol(p: string, c: char, x: bv5, n: nat, u: bv5, w: bv5, q: string)
    requires SumIs(p, u) && IndexFor(c) == Some(x as int)
    requires n == |p| + 1 && u ^ RowTimesBv(x, SlotAt(n)) == w && q == p + [c]
    ensures SumIs(q, w)
  {
    assert q[..|q| - 1] == p;
    assert q[|q| - 1] == c;
    ToIndexIsIndexFor(c);
    ElemBvOfVector(x);
    StepAgrees(WeightedSum(Powers, p, Rfc()).value, u, x as int, |q|);
  }

  /** A record of the symbols of a piece of payload: each symbol with its
      value and the 5-bit sum after it. */
  datatype Run = Done | Step(symbol: char, value: bv5, sum: bv5, rest: Run)

  /** `r` records `s[i..]` placed after `n` earlier symbols, starting from
      the sum `u`: the symbols are those of `s`, the values are their indices
      and each sum is the previous one plus the value times its slot. */
  predicate RunFrom(u: bv5, n: nat, s: string, i: nat, r: Run)
    decreases r
  {
    match r
    case Done => i == |s|
    case Step(c, x, w, rest) =>
      i < |s| && s[i] == c && IndexFor(c) == Some(x as int) && u ^ RowTimesBv(x, SlotAt(n + i + 1)) == w &&
      RunFrom(w, n, s, i + 1, rest)
  }

  /** The last sum a run records, or `u` for an empty one. */
  function Final(u: bv5, r: Run): bv5
    decreases r
  {
    match r
    case Done => u
    case Step(_, _, w, rest) => Final(w, rest)
  }

  /** One recorded symbol: `s[i]` of value `x` at position `|p| + i + 1`
      takes the sum of `p + s[..i]` from `u` to `w`. */
  lemma RunStep(p: string, u: bv5, s: string, i: nat, x: bv5, w: bv5)
    requires i < |s| && SumIs(p + s[..i], u) && IndexFor(s[i]) == Some(x as int)
    requires u ^ RowTimesBv(x, SlotAt(|p| + i + 1)) == w
    ensures SumIs(p + s[..i + 1], w)
  {
    TakeOneMore(p, s, i);
    PushSymbol(p + s[..i], s[i], x, |p| + i + 1, u, w, p + s[..i + 1]);
  }

  /** Taking one more character of `s`. */
  lemma TakeOneMore(p: string, s: string, i: nat)
    requires i < |s|
    ensures (p + s[..i]) + [s[i]] == p + s[..i + 1]
  {
    assert s[..i + 1] == s[..i] + [s[i]];
  }

  /** A run that records `s[i..]` after `p + s[..i]` gives the weighted sum
      of `p + s`. */
  lemma {:induction false} RunAgrees(p: string, u: bv5, s: string, i: nat, r: Run)
    requires i <= |s| && SumIs(p + s[..i], u) && RunFrom(u, |p|, s, i, r)
    ensures SumIs(p + s, Final(u, r))
    decreases r
  {
    match r
    case Done =>
      assert s[..i] == s;
    case Step(c, x, w, rest) =>
      RunStep(p, u, s, i, x, w);
      RunAgrees(p, w, s, i + 1, rest);
  }

  /** Some run records all `m` symbols of `s` after `n` earlier symbols,
      taking the sum from `u` to `w`. */
  ghost predicate Recorded(u: bv5, n: nat, s: string, m: nat, w: bv5) {
    |s| == m && exists r :: RunFrom(u, n, s, 0, r) && Final(u, r) == w
  }

  /** `p` has `n` symbols and a weighted sum that agrees with `u`. */
  ghost predicate SumOf(p: string, n: nat, u: bv5) {
    |p| == n && SumIs(p, u)
  }

  /** Appending a recorded piece `s` of `m` symbols to the `n` symbols of `p`
      takes the weighted sum from `u` to `w`. */
  lemma RunAppends(p: string, u: bv5, n: nat, s: string, m: nat, w: bv5)
    requires SumOf(p, n, u) && Recorded(u, n, s, m, w)
    ensures SumOf(p + s, n + m, w)
  {
    var r :| RunFrom(u, n, s, 0, r) && Final(u, r) == w;
    assert p + s[..0] == p;
    RunAgrees(p, u, s, 0, r);
  }

  /** The three facts the test table states of a payload and its check
      character `c`: `c` is computed, the payload followed by `c` is valid,
      and the payload alone is valid exactly when `c` is "A". */
  ghost predicate ChecksTo(payload: string, c: char) {
    && Compute(payload, Rfc()) == Success(c)
    && Validate(payload + [c], Rfc()) == Success(true)
    && Validate(payload, Rfc()) == Success(c == 'A')
  }

  /** The check character of a payload of `n` symbols whose sum agrees with
      `sum` is the symbol `c` of `x`, the product of `sum` with the final
      slot `e`. */
  lemma ComputesTo(payload: string, n: nat, sum: bv5, e: nat, x: bv5, c: char)
    requires SumOf(payload, n, sum)
    requires e == Exponent(n) && RowTimesBv(sum, SlotBv(e)) == x && SymbolFor(x as int) == c
    ensures AllSymbols(payload, Rfc())
    ensures Compute(payload, Rfc()) == Success(c)
  {
    SumTimesSlot(payload, n, sum, e, x);
    ToCharIsSymbolFor(x as int);
  }

  /** A payload whose sum agrees with `sum` consists of symbols, and its sum
      times slot `e` of the default table is the product `x` computed on
      5-bit vectors. */
  lemma SumTimesSlot(payload: string, n: nat, sum: bv5, e: nat, x: bv5)
    requires SumOf(payload, n, sum)
    requires e < Cardinal - 1 && RowTimesBv(sum, SlotBv(e)) == x
    ensures AllSymbols(payload, Rfc())
    ensures RowTimes(WeightedSum(Powers, payload, Rfc()).value, Powers[e]) == x as int
  {
    PowersCyclic();
    WeightedSumDefined(Powers, payload, Rfc());
    var total := WeightedSum(Powers, payload, Rfc()).value;
    ElemBvOfVector(x);
    ElemAgrees(x as int);
    SlotAgrees(e);
    RowTimesAgrees(total, sum, Powers[e], SlotBv(e));
    AgreesEqual(RowTimes(total, Powers[e]), x as int, x);
  }

  /** The three facts of the test table follow for such a payload: its check
      character is `c`, it is valid followed by `c`, and it is valid alone
      exactly when `c` is "A". */
  lemma CheckOf(payload: string, n: nat, sum: bv5, e: nat, x: bv5, c: char)
    requires SumOf(payload, n, sum)
    requires e == Exponent(n) && RowTimesBv(sum, SlotBv(e)) == x && SymbolFor(x as int) == c
    ensures ChecksTo(payload, c)
  {
    ComputesTo(payload, n, sum, e, x, c);
    ValidateOwnCheckRfc(payload);
  }
}
