/** Saturating 64-bit arithmetic and what regrouping and reordering do to it. */
module Saturating {

  const MIN: int := -0x8000_0000_0000_0000
  const MAX: int := 0x7fff_ffff_ffff_ffff

  type Int64 = x: int | MIN <= x <= MAX

  function Clamp(x: int): Int64 {
    if x < MIN then MIN else if x > MAX then MAX else x
  }

  function SaturatingAdd(x: Int64, y: Int64): Int64 {
    Clamp(x + y)
  }

  function SaturatingSub(x: Int64, y: Int64): Int64 {
    Clamp(x - y)
  }

  /** Division as the source's integers do it: toward zero. */
  function Half(x: int): int {
    if x >= 0 then x / 2 else -(-x / 2)
  }

  function NaiveAverage(x: Int64, y: Int64): Int64 {
    Half(SaturatingAdd(x, y))
  }

  function Distance(x: int, y: int): nat {
    if x < y then y - x else x - y
  }

  /** Saturation gives the machine integer nearest to the exact result, the result itself if it is one. */
  lemma ClampIsNearest(x: int, y: Int64)
    ensures Distance(Clamp(x), x) < Distance(y, x) || y == Clamp(x)
  {
  }

  /** Halving rounds toward zero: at most one is dropped, and never the sign. */
  lemma HalfTruncates(x: int)
    ensures var rest := x - 2 * Half(x); if x >= 0 then 0 <= rest <= 1 else -1 <= rest <= 0
  {
  }

  /** The balance after subtracting the values one event at a time. */
  function SubtractEach(balance: Int64, values: seq<Int64>): Int64
    decreases |values|
  {
    if values == [] then balance else SubtractEach(SaturatingSub(balance, values[0]), values[1..])
  }

  /** The balance after crediting the amounts one event at a time; with balance 0, the saturating sum of a batch. */
  function AddEach(balance: Int64, amounts: seq<Int64>): Int64
    decreases |amounts|
  {
    if amounts == [] then balance else AddEach(SaturatingAdd(balance, amounts[0]), amounts[1..])
  }

  function Sum(values: seq<Int64>): int {
    if values == [] then 0 else values[0] + Sum(values[1..])
  }

  predicate NonNegative(values: seq<Int64>) {
    forall i :: 0 <= i < |values| ==> values[i] >= 0
  }

  lemma {:induction false} SumNonNegative(values: seq<Int64>)
    requires NonNegative(values)
    ensures Sum(values) >= 0
  {
    if values != [] {
      SumNonNegative(values[1..]);
    }
  }

  /** Saturating step by step is clamping the exact result once. */
  lemma {:induction false} SubtractEachClamps(balance: Int64, values: seq<Int64>)
    requires NonNegative(values)
    ensures SubtractEach(balance, values) == Clamp(balance - Sum(values))
    decreases |values|
  {
    if values != [] {
      SumNonNegative(values[1..]);
      SubtractEachClamps(SaturatingSub(balance, values[0]), values[1..]);
    }
  }

  lemma {:induction false} AddEachClamps(balance: Int64, amounts: seq<Int64>)
    requires NonNegative(amounts)
    ensures AddEach(balance, amounts) == Clamp(balance + Sum(amounts))
    decreases |amounts|
  {
    if amounts != [] {
      SumNonNegative(amounts[1..]);
      AddEachClamps(SaturatingAdd(balance, amounts[0]), amounts[1..]);
    }
  }

  // ---------------------------------------------------------------------------------------------
  // Order

  lemma SumRemove(values: seq<Int64>, k: nat)
    requires k < |values|
    ensures Sum(values) == values[k] + Sum(values[..k] + values[k + 1..])
  {
    assert values == values[..k] + values[k..] && values[k..][1..] == values[k + 1..];
    SumAppend(values[..k], values[k..]);
    SumAppend(values[..k], values[k + 1..]);
  }

  lemma WithoutOne(values: seq<Int64>, permuted: seq<Int64>, k: nat)
    requires values != [] && multiset(values) == multiset(permuted) && k < |permuted| && permuted[k] == values[0]
    ensures multiset(values[1..]) == multiset(permuted[..k] + permuted[k + 1..])
  {
    assert values == [values[0]] + values[1..];
    assert permuted == permuted[..k] + ([permuted[k]] + permuted[k + 1..]);
    assert multiset(values[1..]) == multiset(values) - multiset{values[0]};
    assert multiset(permuted[..k] + permuted[k + 1..]) == multiset(permuted) - multiset{permuted[k]};
  }

  lemma {:induction false} SumOfPermutation(values: seq<Int64>, permuted: seq<Int64>)
    requires multiset(values) == multiset(permuted)
    ensures Sum(values) == Sum(permuted)
    decreases |values|
  {
    if values == [] {
      assert |multiset(values)| == |multiset(permuted)|;
    } else {
      assert values[0] in multiset(permuted);
      var k :| 0 <= k < |permuted| && permuted[k] == values[0];
      WithoutOne(values, permuted, k);
      SumOfPermutation(values[1..], permuted[..k] + permuted[k + 1..]);
      SumRemove(permuted, k);
    }
  }

  /** Non-negative debits, or credits, may be delivered in any order. */
  lemma OrderIrrelevant(balance: Int64, values: seq<Int64>, permuted: seq<Int64>)
    requires NonNegative(values) && multiset(values) == multiset(permuted)
    ensures SubtractEach(balance, values) == SubtractEach(balance, permuted)
    ensures AddEach(balance, values) == AddEach(balance, permuted)
  {
    forall i | 0 <= i < |permuted| ensures permuted[i] >= 0 {
      assert permuted[i] in multiset(values);
    }
    SumOfPermutation(values, permuted);
    SubtractEachClamps(balance, values);
    SubtractEachClamps(balance, permuted);
    AddEachClamps(balance, values);
    AddEachClamps(balance, permuted);
  }

  /**
    * Exactly when a credit and a debit, of any signs, may be exchanged: the first of the two to be applied, in
    * either order, saturates only where the other pushes the same way or not at all.
    */
  predicate Exchangeable(balance: Int64, credit: Int64, debit: Int64) {
    && (balance + credit > MAX ==> debit <= 0) && (balance + credit < MIN ==> debit >= 0)
    && (balance - debit > MAX ==> credit >= 0) && (balance - debit < MIN ==> credit <= 0)
  }

  lemma CreditDebitCommute(balance: Int64, credit: Int64, debit: Int64)
    ensures SaturatingSub(SaturatingAdd(balance, credit), debit) == SaturatingAdd(SaturatingSub(balance, debit), credit)
       <==> Exchangeable(balance, credit, debit)
  {
  }

  // ---------------------------------------------------------------------------------------------
  // Regrouping

  function Flatten(batches: seq<seq<Int64>>): seq<Int64> {
    if batches == [] then [] else batches[0] + Flatten(batches[1..])
  }

  /** One event per batch, carrying the saturating sum of its values. */
  function Batched(batches: seq<seq<Int64>>): (r: seq<Int64>)
    ensures |r| == |batches|
  {
    if batches == [] then [] else [AddEach(0, batches[0])] + Batched(batches[1..])
  }

  lemma {:induction false} SumAppend(xs: seq<Int64>, ys: seq<Int64>)
    ensures Sum(xs + ys) == Sum(xs) + Sum(ys)
  {
    if xs == [] {
      assert xs + ys == ys;
    } else {
      assert (xs + ys)[1..] == xs[1..] + ys;
      SumAppend(xs[1..], ys);
    }
  }

  /** No batch's exact sum overflows. */
  predicate BatchesFit(batches: seq<seq<Int64>>) {
    forall i :: 0 <= i < |batches| ==> Sum(batches[i]) <= MAX
  }

  predicate AllNonNegative(batches: seq<seq<Int64>>) {
    forall i :: 0 <= i < |batches| ==> NonNegative(batches[i])
  }

  lemma {:induction false} FlattenTotals(batches: seq<seq<Int64>>)
    requires AllNonNegative(batches)
    ensures NonNegative(Flatten(batches))
    ensures batches != [] ==> Sum(Flatten(batches)) == Sum(batches[0]) + Sum(Flatten(batches[1..]))
  {
    if batches != [] {
      FlattenTotals(batches[1..]);
      SumAppend(batches[0], Flatten(batches[1..]));
    }
  }

  lemma {:induction false} BatchTotals(batches: seq<seq<Int64>>)
    requires AllNonNegative(batches)
    ensures NonNegative(Batched(batches))
    ensures batches != [] ==>
              Sum(Batched(batches)) == Clamp(Sum(batches[0])) + Sum(Batched(batches[1..])) && Sum(batches[0]) >= 0
  {
    if batches != [] {
      BatchTotals(batches[1..]);
      AddEachClamps(0, batches[0]);
      SumNonNegative(batches[0]);
      assert Batched(batches)[1..] == Batched(batches[1..]);
    }
  }

  lemma {:induction false} BatchedTotals(batches: seq<seq<Int64>>)
    requires AllNonNegative(batches)
    ensures Sum(Batched(batches)) <= Sum(Flatten(batches))
    ensures Sum(Batched(batches)) == Sum(Flatten(batches)) <==> BatchesFit(batches)
  {
    if batches != [] {
      BatchedTotals(batches[1..]);
      FlattenTotals(batches);
      BatchTotals(batches);
      assert forall i :: 0 < i < |batches| ==> batches[i] == batches[1..][i - 1];
      assert BatchesFit(batches) <==> Sum(batches[0]) <= MAX && BatchesFit(batches[1..]);
    }
  }

  /**
    * Regrouping non-negative debits into batches keeps the balance exactly when every batch sum fits, or the
    * batches alone already exhaust the balance.
    */
  lemma RegroupingExactly(balance: Int64, batches: seq<seq<Int64>>)
    requires AllNonNegative(batches)
    ensures SubtractEach(balance, Batched(batches)) == SubtractEach(balance, Flatten(batches))
       <==> BatchesFit(batches) || balance - Sum(Batched(batches)) <= MIN
    ensures AddEach(balance, Batched(batches)) == AddEach(balance, Flatten(batches))
       <==> BatchesFit(batches) || balance + Sum(Batched(batches)) >= MAX
  {
    BatchedTotals(batches);
    BatchTotals(batches);
    FlattenTotals(batches);
    SumNonNegative(Batched(batches));
    SubtractEachClamps(balance, Batched(batches));
    SubtractEachClamps(balance, Flatten(batches));
    AddEachClamps(balance, Batched(batches));
    AddEachClamps(balance, Flatten(batches));
  }

  /**
    * For two debits of any signs and any sum: the first may saturate only where the second pushes the same way,
    * and where their sum saturates the balance must be exhausted by the saturated sum.
    */
  lemma PairRegroupsExactly(balance: Int64, x: Int64, y: Int64)
    ensures SubtractEach(balance, [x, y]) == SubtractEach(balance, [SaturatingAdd(x, y)])
       <==> && (balance - x < MIN ==> y >= 0) && (balance - x > MAX ==> y <= 0)
            && (x + y > MAX ==> balance - MAX <= MIN) && (x + y < MIN ==> balance - MIN >= MAX)
  {
    assert [x, y][1..] == [y] && [y][1..] == [];
    assert SubtractEach(SaturatingSub(balance, x), [y]) == SaturatingSub(SaturatingSub(balance, x), y);
    assert SubtractEach(balance, [x, y]) == SaturatingSub(SaturatingSub(balance, x), y);
    assert SubtractEach(balance, [SaturatingAdd(x, y)]) == SaturatingSub(balance, SaturatingAdd(x, y));
  }

  /** What halving toward zero drops: 1, 0 or -1. */
  function Dropped(n: int): int {
    n - 2 * Half(n)
  }

  /** The fourth part, toward zero. */
  function Quarter(n: int): int {
    if n >= 0 then n / 4 else -(-n / 4)
  }

  /** Clamping a doubled sum. */
  function ClampTwice(n: int): int {
    if n < 2 * MIN then 2 * MIN else if n > 2 * MAX then 2 * MAX else n
  }

  lemma HalfOfHalf(n: int)
    ensures Half(Half(2 * n)) == Half(n) && Quarter(2 * n) == Half(n)
  {
    assert 2 * n / 2 == n && (n >= 0 ==> 2 * n / 4 == n / 2) && (n < 0 ==> -(2 * n) / 4 == -n / 2);
  }

  /** An average of an average, in closed form, whatever the signs and whatever saturates. */
  lemma AverageOfAverage(x: Int64, y: Int64, z: Int64)
    ensures var s := SaturatingAdd(x, y);
            NaiveAverage(NaiveAverage(x, y), z) == Quarter(ClampTwice(s + 2 * z - Dropped(s)))
  {
    var s := SaturatingAdd(x, y);
    var n := Half(s) + z;
    assert s + 2 * z - Dropped(s) == 2 * n;
    assert ClampTwice(2 * n) == 2 * Clamp(n);
    HalfOfHalf(Clamp(n));
  }

  /** Halving does not tell them apart: equal, both next to zero, or an even one and the next away from zero. */
  predicate HalveAlike(m: int, n: int) {
    || m == n
    || (-1 <= m <= 1 && -1 <= n <= 1)
    || (m >= 0 && m % 2 == 0 && n == m + 1) || (n >= 0 && n % 2 == 0 && m == n + 1)
    || (m <= 0 && m % 2 == 0 && n == m - 1) || (n <= 0 && n % 2 == 0 && m == n - 1)
  }

  lemma HalvesAlike(m: int, n: int)
    ensures Half(m) == Half(n) <==> HalveAlike(m, n)
  {
    assert (m >= 0 ==> m == 2 * (m / 2) + m % 2) && (m < 0 ==> -m == 2 * (-m / 2) + -m % 2);
    assert (n >= 0 ==> n == 2 * (n / 2) + n % 2) && (n < 0 ==> -n == 2 * (-n / 2) + -n % 2);
  }

  /**
    * For all values, by which of the second sums saturates: if one saturates above, the other must at least reach
    * the next value below; if one saturates below, so must the other; if neither does, they must halve alike.
    */
  lemma AveragesRegroupExactly(x: Int64, y: Int64, z: Int64)
    ensures var m, n := NaiveAverage(x, y) + z, x + NaiveAverage(y, z);
            NaiveAverage(NaiveAverage(x, y), z) == NaiveAverage(x, NaiveAverage(y, z)) <==>
              if m > MAX || n > MAX then m >= MAX - 1 && n >= MAX - 1
              else if m < MIN || n < MIN then m <= MIN && n <= MIN
              else HalveAlike(m, n)
  {
    var m, n := NaiveAverage(x, y) + z, x + NaiveAverage(y, z);
    HalvesAlike(Clamp(m), Clamp(n));
  }

  /** Nothing saturates, whichever way the three are grouped. */
  predicate Unsaturated(x: Int64, y: Int64, z: Int64) {
    && MIN <= x + y <= MAX && MIN <= y + z <= MAX
    && MIN <= Half(x + y) + z <= MAX && MIN <= x + Half(y + z) <= MAX
  }

  lemma AlikeIsNear(m: int, n: int)
    ensures HalveAlike(m, n) ==> -2 <= m - n <= 2
  {
  }

  lemma GapIsTwice(x: Int64, y: Int64, z: Int64)
    ensures z - x + Dropped(y + z) - Dropped(x + y) == 2 * (Half(x + y) + z - (x + Half(y + z)))
    ensures -2 <= Dropped(y + z) - Dropped(x + y) <= 2
  {
  }

  lemma UnsaturatedGap(x: Int64, y: Int64, z: Int64)
    requires Unsaturated(x, y, z)
    ensures var m, n := Half(x + y) + z, x + Half(y + z);
            NaiveAverage(NaiveAverage(x, y), z) == NaiveAverage(x, NaiveAverage(y, z)) <==> HalveAlike(m, n)
  {
    AveragesRegroupExactly(x, y, z);
  }

  lemma EvenGap(gap: int, k: int)
    requires gap == 2 * k
    ensures gap % 2 == 0 && gap / 2 == k
  {
  }

  lemma FarApart(x: Int64, y: Int64, z: Int64)
    requires Unsaturated(x, y, z) && (z - x >= 7 || x - z >= 7)
    ensures NaiveAverage(NaiveAverage(x, y), z) != NaiveAverage(x, NaiveAverage(y, z))
  {
    UnsaturatedGap(x, y, z);
    GapIsTwice(x, y, z);
    AlikeIsNear(Half(x + y) + z, x + Half(y + z));
  }

  /** Where nothing saturates only the ends' distance and what rounding drops count: never when they are seven apart. */
  lemma UnsaturatedAveragesRegroup(x: Int64, y: Int64, z: Int64)
    requires Unsaturated(x, y, z)
    ensures var m := Half(x + y) + z;
            var gap := z - x + Dropped(y + z) - Dropped(x + y);
            var left, right := NaiveAverage(NaiveAverage(x, y), z), NaiveAverage(x, NaiveAverage(y, z));
            && gap % 2 == 0 && -2 <= Dropped(y + z) - Dropped(x + y) <= 2
            && (left == right <==> HalveAlike(m, m - gap / 2))
    ensures z - x >= 7 || x - z >= 7 ==> NaiveAverage(NaiveAverage(x, y), z) != NaiveAverage(x, NaiveAverage(y, z))
  {
    UnsaturatedGap(x, y, z);
    GapIsTwice(x, y, z);
    EvenGap(z - x + Dropped(y + z) - Dropped(x + y), Half(x + y) + z - (x + Half(y + z)));
    if z - x >= 7 || x - z >= 7 {
      FarApart(x, y, z);
    }
  }

  lemma NaiveAverageOfTwo(x: Int64, y: Int64)
    requires x >= 0 && y >= 0 && x + y <= MAX
    ensures NaiveAverage(x, y) == (x + y) / 2
  {
  }

  lemma NestedHalves(n: nat, k: nat)
    ensures (n / 2 + k) / 2 == (n + 2 * k) / 4
  {
    assert n / 2 == (n - n % 2) / 2;
  }

  lemma SameQuarter(p: nat, gap: int)
    requires p + gap >= 0
    ensures p / 4 == (p + gap) / 4 <==> 0 <= p % 4 + gap < 4
  {
    assert p == 4 * (p / 4) + p % 4;
  }

  lemma AverageTwice(x: Int64, y: Int64, z: Int64)
    requires x >= 0 && y >= 0 && z >= 0 && x + y <= MAX && (x + y) / 2 + z <= MAX
    ensures NaiveAverage(NaiveAverage(x, y), z) == (x + y + 2 * z) / 4
  {
    NaiveAverageOfTwo(x, y);
    NestedHalves(x + y, z);
    assert NaiveAverage(x, y) >= 0;
    NaiveAverageOfTwo(NaiveAverage(x, y), z);
  }

  /** For non-negative values it is the distance of the ends and one residue: never when they are four apart. */
  lemma SmallAveragesRegroupExactly(x: Int64, y: Int64, z: Int64)
    requires x >= 0 && y >= 0 && z >= 0 && x + y <= MAX && y + z <= MAX && x + z <= MAX
    ensures NaiveAverage(NaiveAverage(x, y), z) == NaiveAverage(x, NaiveAverage(y, z))
       <==> 0 <= (x + y + 2 * z) % 4 + (x - z) < 4
  {
    AverageTwice(x, y, z);
    AverageTwice(y, z, x);
    AverageSymmetric(x, NaiveAverage(y, z));
    SameQuarter(x + y + 2 * z, x - z);
  }

  lemma AverageSymmetric(x: Int64, y: Int64)
    ensures NaiveAverage(x, y) == NaiveAverage(y, x)
  {
  }
}
