/** The Luhn check the scrubber applies to card numbers (Annex B of ISO/IEC 7812-1). */
module Luhn {
  type Digit = d: int | 0 <= d < 10

  /** A digit's share of the sum, doubled at every second position from the right. */
  function Weight(d: Digit, doubled: bool): int {
    if !doubled then d
    else if 2 * d > 9 then 2 * d - 9
    else 2 * d
  }

  function Sum(ds: seq<Digit>, doubled: bool): int
    decreases |ds|
  {
    if ds == [] then 0
    else Weight(ds[|ds| - 1], doubled) + Sum(ds[..|ds| - 1], !doubled)
  }

  predicate Valid(ds: seq<Digit>) {
    Sum(ds, false) % 10 == 0
  }

  /** The loop over the digits from the right. */
  method LuhnValid(ds: seq<Digit>) returns (valid: bool)
    ensures valid == Valid(ds)
  {
    var sum, alt := 0, false;
    var i := |ds|;
    assert ds[..i] == ds;
    while i > 0
      invariant 0 <= i <= |ds|
      invariant sum + Sum(ds[..i], alt) == Sum(ds, false)
    {
      assert ds[..i][..i - 1] == ds[..i - 1];
      i := i - 1;
      var n: int := ds[i];
      if alt {
        n := n * 2;
        if n > 9 { n := n - 9; }
      }
      sum := sum + n;
      alt := !alt;
    }
    valid := sum % 10 == 0;
  }

  /** Whether position `i` of an `n`-digit number is doubled. */
  predicate DoubledAt(n: nat, i: nat, doubled: bool)
    requires i < n
  {
    ((n - 1 - i) % 2 == 1) != doubled
  }

  /** Changing one digit changes the sum by the change of its weight. */
  lemma {:induction false} SumUpdate(ds: seq<Digit>, i: nat, e: Digit, doubled: bool)
    requires i < |ds|
    ensures Sum(ds[i := e], doubled) ==
            Sum(ds, doubled) - Weight(ds[i], DoubledAt(|ds|, i, doubled)) + Weight(e, DoubledAt(|ds|, i, doubled))
    decreases |ds|
  {
    var n := |ds|;
    if i == n - 1 {
      assert ds[i := e][..n - 1] == ds[..n - 1];
    } else {
      assert ds[i := e][..n - 1] == ds[..n - 1][i := e];
      SumUpdate(ds[..n - 1], i, e, !doubled);
    }
  }

  /** Every single-digit error is caught. */
  lemma SingleErrorCaught(ds: seq<Digit>, i: nat, e: Digit)
    requires i < |ds| && e != ds[i] && Valid(ds)
    ensures !Valid(ds[i := e])
  {
    var doubled := DoubledAt(|ds|, i, false);
    SumUpdate(ds, i, e, false);
    WeightsDiffer(ds[i], e, doubled);
    Shifted(Sum(ds, false), Weight(e, doubled) - Weight(ds[i], doubled));
  }

  lemma WeightsDiffer(d: Digit, e: Digit, doubled: bool)
    requires d != e
    ensures 0 < Weight(d, doubled) - Weight(e, doubled) < 10 || 0 < Weight(e, doubled) - Weight(d, doubled) < 10
  {
  }

  predicate ZeroAndNine(a: Digit, b: Digit) {
    (a == 0 && b == 9) || (a == 9 && b == 0)
  }

  /** Swapping two unequal neighbours is caught exactly when they are not 0 and 9. */
  lemma TranspositionCaught(ds: seq<Digit>, i: nat)
    requires i + 1 < |ds| && ds[i] != ds[i + 1] && Valid(ds)
    ensures Valid(ds[i := ds[i + 1]][i + 1 := ds[i]]) <==> ZeroAndNine(ds[i], ds[i + 1])
  {
    var a, b, doubled := ds[i], ds[i + 1], DoubledAt(|ds|, i, false);
    SumSwap(ds, i);
    SwapChanges(a, b, doubled);
    Shifted(Sum(ds, false), Weight(b, doubled) - Weight(a, doubled) + Weight(a, !doubled) - Weight(b, !doubled));
  }

  lemma SumSwap(ds: seq<Digit>, i: nat)
    requires i + 1 < |ds|
    ensures var a, b, doubled := ds[i], ds[i + 1], DoubledAt(|ds|, i, false);
            Sum(ds[i := b][i + 1 := a], false) ==
            Sum(ds, false) + (Weight(b, doubled) - Weight(a, doubled) + Weight(a, !doubled) - Weight(b, !doubled))
  {
    SumUpdate(ds, i, ds[i + 1], false);
    SumUpdate(ds[i := ds[i + 1]], i + 1, ds[i], false);
  }

  lemma Shifted(sum: int, change: int)
    requires sum % 10 == 0 && -10 < change < 10
    ensures (sum + change) % 10 == 0 <==> change == 0
  {
  }

  lemma SwapChanges(a: Digit, b: Digit, doubled: bool)
    requires a != b
    ensures var change := Weight(b, doubled) - Weight(a, doubled) + Weight(a, !doubled) - Weight(b, !doubled);
            -10 < change < 10 && (change == 0 <==> ZeroAndNine(a, b))
  {
  }

  // ---------------------------------------------------------------- the rule of the standard

  /** The digits of twice a digit, added up, at every second position counted from the right. */
  function Share(ds: seq<Digit>, i: nat): int
    requires i < |ds|
  {
    var d: int := ds[i];
    if (|ds| - i) % 2 == 0 then 2 * d / 10 + 2 * d % 10 else d
  }

  function Shares(ds: seq<Digit>, n: nat): int
    requires n <= |ds|
  {
    if n == 0 then 0 else Shares(ds, n - 1) + Share(ds, n - 1)
  }

  lemma {:induction false} SumIsShares(ds: seq<Digit>, n: nat)
    requires n <= |ds|
    ensures Sum(ds[..n], (|ds| - n) % 2 == 1) == Shares(ds, n)
  {
    if n > 0 {
      SumIsShares(ds, n - 1);
      assert ds[..n][..n - 1] == ds[..n - 1];
      assert (|ds| - (n - 1)) % 2 == 1 <==> (|ds| - n) % 2 == 0;
    }
  }

  /** The check is the standard's: the shares add up to a multiple of ten. */
  lemma ValidIsTheRule(ds: seq<Digit>)
    ensures Valid(ds) <==> Shares(ds, |ds|) % 10 == 0
  {
    SumIsShares(ds, |ds|);
    assert ds[..|ds|] == ds;
  }

  /** Every number has exactly one check digit. */
  lemma OneCheckDigit(ds: seq<Digit>, d: Digit)
    ensures Valid(ds + [d]) <==> d == (10 - Sum(ds, true) % 10) % 10
  {
    assert (ds + [d])[..|ds|] == ds;
  }
}
