/** ZIP 318 denominations: the largest `{1, 2, 5} * 10^k` below a bound, and membership in that series. */
module Zip318 {
  import opened ByteStrings
  import opened Io
  import opened Values

  const DENOMINATION_RADIX: nat := 10
  const ONE_TWO_FIVE_DESCENDING: seq<nat> := [5, 2, 1]

  const DENOM_CAP: nat := 10_000 * COIN
  const MAX_RESIDUAL_VALUE: nat := COIN / 100

  //////////////////////////////////////////////////////////////////////////////
  // The series
  //////////////////////////////////////////////////////////////////////////////

  /** `n * 10^k`. */
  function Scaled(n: nat, k: nat): nat {
    if k == 0 then n else 10 * Scaled(n, k - 1)
  }

  /** `v` is 1, 2 or 5 times a power of ten times `floor`, by way of `k`. */
  predicate OnScaleAt(v: nat, floor: nat, k: nat) {
    v == Scaled(floor, k) || v == 2 * Scaled(floor, k) || v == 5 * Scaled(floor, k)
  }

  ghost predicate OnScale(v: nat, floor: nat) {
    exists k: nat :: OnScaleAt(v, floor, k)
  }

  /** `v` is the greatest member of the series not above `hi`. */
  ghost predicate Largest(v: nat, hi: nat, floor: nat) {
    OnScale(v, floor) && v <= hi && forall w: nat :: OnScale(w, floor) && w <= hi ==> w <= v
  }

  lemma {:induction false} ScaledGrows(n: nat, j: nat, k: nat)
    requires j < k
    ensures 10 * Scaled(n, j) <= Scaled(n, k)
  {
    if j + 1 < k {
      ScaledGrows(n, j, k - 1);
    }
  }

  /** Between one power and the next, the greatest fitting multiple is the greatest member. */
  lemma BestMultipleIsLargest(v: nat, hi: nat, floor: nat, k: nat)
    requires OnScaleAt(v, floor, k) && v <= hi < 10 * Scaled(floor, k)
    requires 5 * Scaled(floor, k) <= hi ==> v == 5 * Scaled(floor, k)
    requires 2 * Scaled(floor, k) <= hi < 5 * Scaled(floor, k) ==> v == 2 * Scaled(floor, k)
    ensures Largest(v, hi, floor)
  {
    forall w: nat | OnScale(w, floor) && w <= hi ensures w <= v {
      var j: nat :| OnScaleAt(w, floor, j);
      if j < k {
        ScaledGrows(floor, j, k);
      } else if k < j {
        ScaledGrows(floor, k, j);
      }
    }
  }

  function CheckedMul(a: u64, b: nat): Option<u64> {
    if a * b <= 0xffff_ffff_ffff_ffff then Some(a * b) else None
  }

  method LargestOneTwoFive(hi: u64, floor: u64) returns (v: u64)
    requires floor > 0
    ensures hi < floor ==> v == 0
    ensures floor <= hi ==> Largest(v, hi, floor)
  {
    if hi < floor {
      return 0;
    }
    var pow: u64 := floor;
    ghost var k: nat := 0;
    while CheckedMul(pow, DENOMINATION_RADIX).Some? && CheckedMul(pow, DENOMINATION_RADIX).value <= hi
      invariant pow == Scaled(floor, k) && 0 < pow <= hi
      decreases hi - pow
    {
      pow := pow * DENOMINATION_RADIX;
      k := k + 1;
    }
    for i := 0 to |ONE_TWO_FIVE_DESCENDING|
      invariant i > 0 ==> 5 * pow > hi
      invariant i > 1 ==> 2 * pow > hi
      invariant i <= 2
    {
      var multiple := CheckedMul(pow, ONE_TWO_FIVE_DESCENDING[i]);
      if multiple.Some? && multiple.value <= hi {
        v := multiple.value;
        BestMultipleIsLargest(v, hi, floor, k);
        return;
      }
    }
    v := pow;
  }

  //////////////////////////////////////////////////////////////////////////////
  // Membership
  //////////////////////////////////////////////////////////////////////////////

  ghost predicate Canonical(v: nat, min: nat, max: nat) {
    min <= v <= max && OnScale(v, 1)
  }

  /** Stripping factors of ten reaches one number only. */
  lemma {:induction false} StrippedIsUnique(a: nat, i: nat, b: nat, j: nat)
    requires a % 10 != 0 && b % 10 != 0 && Scaled(a, i) == Scaled(b, j)
    ensures a == b && i == j
  {
    assert i > 0 ==> Scaled(a, i) % 10 == 0;
    assert j > 0 ==> Scaled(b, j) % 10 == 0;
    if i > 0 {
      StrippedIsUnique(a, i - 1, b, j - 1);
    }
  }

  lemma {:induction false} ScaledMultiple(m: nat, k: nat)
    ensures Scaled(m, k) == m * Scaled(1, k)
  {
    if k > 0 {
      ScaledMultiple(m, k - 1);
    }
  }

  lemma StrippedDecides(v: nat, n: nat, k: nat)
    requires v == Scaled(n, k) && n % 10 != 0
    ensures OnScale(v, 1) <==> n == 1 || n == 2 || n == 5
  {
    ScaledMultiple(n, k);
    if n == 1 || n == 2 || n == 5 {
      assert OnScaleAt(v, 1, k);
    }
    if OnScale(v, 1) {
      var j: nat :| OnScaleAt(v, 1, j);
      var m := if v == Scaled(1, j) then 1 else if v == 2 * Scaled(1, j) then 2 else 5;
      ScaledMultiple(m, j);
      StrippedIsUnique(n, k, m, j);
    }
  }

  /** A zero value would never stop losing factors of ten; a positive lower bound keeps it out. */
  method IsCanonicalWithin(value: Zatoshis, min: Zatoshis, max: Zatoshis) returns (canonical: bool)
    requires min > 0
    ensures canonical <==> Canonical(value, min, max)
  {
    if value < min || value > max {
      return false;
    }
    var n: nat := value;
    ghost var k: nat := 0;
    while n % DENOMINATION_RADIX == 0
      invariant n > 0 && value == Scaled(n, k)
      decreases n
    {
      ScaledMultiple(n, k);
      ScaledMultiple(n / 10, k + 1);
      n := n / DENOMINATION_RADIX;
      k := k + 1;
    }
    StrippedDecides(value, n, k);
    canonical := n in ONE_TWO_FIVE_DESCENDING;
  }

  method IsCanonicalDenomination(value: Zatoshis) returns (canonical: bool)
    ensures canonical <==> Canonical(value, MAX_RESIDUAL_VALUE, DENOM_CAP)
  {
    canonical := IsCanonicalWithin(value, MAX_RESIDUAL_VALUE, DENOM_CAP);
  }

  //////////////////////////////////////////////////////////////////////////////
  // Agreement
  //////////////////////////////////////////////////////////////////////////////

  lemma {:induction false} ScaledTwice(n: nat, i: nat, j: nat)
    ensures Scaled(Scaled(n, i), j) == Scaled(n, i + j)
  {
    if j > 0 {
      ScaledTwice(n, i, j - 1);
    }
  }

  lemma FloorIsMillion()
    ensures MAX_RESIDUAL_VALUE == Scaled(1, 6)
  {
    assert Scaled(1, 2) == 100 && Scaled(1, 4) == 100 * Scaled(1, 2) && Scaled(1, 6) == 100 * Scaled(1, 4);
  }

  /** From the floor upwards, the series over the floor and the series over one zatoshi coincide. */
  lemma SeriesCoincide(v: nat)
    requires v >= MAX_RESIDUAL_VALUE
    ensures OnScale(v, MAX_RESIDUAL_VALUE) <==> OnScale(v, 1)
  {
    FloorIsMillion();
    if OnScale(v, MAX_RESIDUAL_VALUE) {
      var k: nat :| OnScaleAt(v, MAX_RESIDUAL_VALUE, k);
      ScaledTwice(1, 6, k);
      assert OnScaleAt(v, 1, 6 + k);
    }
    if OnScale(v, 1) {
      var j: nat :| OnScaleAt(v, 1, j);
      if j < 6 {
        ScaledGrows(1, j, 6);
      }
      ScaledTwice(1, 6, j - 6);
      assert OnScaleAt(v, MAX_RESIDUAL_VALUE, j - 6);
    }
  }

  /** The loop fixes a value in range exactly when the stripping test calls it canonical. */
  lemma FixedExactlyWhenCanonical(v: nat, best: nat)
    requires MAX_RESIDUAL_VALUE <= v <= DENOM_CAP && Largest(best, v, MAX_RESIDUAL_VALUE)
    ensures best == v <==> Canonical(v, MAX_RESIDUAL_VALUE, DENOM_CAP)
  {
    SeriesCoincide(v);
  }
}
