/** examples/rust/target.rs, the program the driver debugs:
    `compute_total` adds up a slice of `i64` in a loop, and `main` calls
    it on `[3, 7, 11, 13]`. Rust's `+=` on `i64` panics on overflow in a
    debug build, which `rustc -g` produces; the model returns `None` for
    that panic. */
module Target {
  import opened Wrappers

  const I64Min: int := -0x8000_0000_0000_0000
  const I64Max: int := 0x7fff_ffff_ffff_ffff

  newtype i64 = x: int | I64Min <= x <= I64Max

  /** The mathematical sum of the values, without any bound. */
  function Sum(s: seq<i64>): int
  {
    if s == [] then 0 else Sum(s[..|s| - 1]) + s[|s| - 1] as int
  }

  /** Every running total of the loop, the empty one included, fits in an
      `i64`. */
  predicate NoOverflow(input: seq<i64>)
  {
    forall i :: 0 <= i <= |input| ==> I64Min <= Sum(input[..i]) <= I64Max
  }

  /** `compute_total`: the sum of the input as an `i64`, or `None` when
      the loop panics, which it does exactly when a running total leaves
      the `i64` range. */
  method ComputeTotal(input: seq<i64>) returns (total: Option<i64>)
    ensures total.Some? <==> NoOverflow(input)
    ensures total.Some? ==> total.value as int == Sum(input)
  {
    var acc: i64 := 0;
    for i := 0 to |input|
      invariant acc as int == Sum(input[..i])
      invariant forall j :: 0 <= j <= i ==> I64Min <= Sum(input[..j]) <= I64Max
    {
      assert input[..i + 1][..i] == input[..i];
      var next := acc as int + input[i] as int;
      assert Sum(input[..i + 1]) == next;
      if !(I64Min <= next <= I64Max) {
        return None;
      }
      acc := next as i64;
    }
    assert input[..|input|] == input;
    return Some(acc);
  }

  lemma {:induction false} SumConcat(a: seq<i64>, b: seq<i64>)
    ensures Sum(a + b) == Sum(a) + Sum(b)
    decreases |b|
  {
    if b != [] {
      var front := b[..|b| - 1];
      assert (a + b)[..|a + b| - 1] == a + front;
      assert (a + b)[|a + b| - 1] == b[|b| - 1];
      SumConcat(a, front);
      assert Sum(b) == Sum(front) + b[|b| - 1] as int;
    } else {
      assert a + b == a;
    }
  }

  /** The sum of `n` values, each between `lo` and `hi`, is between
      `n * lo` and `n * hi`. */
  lemma {:induction false} SumBounds(s: seq<i64>, lo: int, hi: int)
    requires forall i :: 0 <= i < |s| ==> lo <= s[i] as int <= hi
    ensures |s| * lo <= Sum(s) <= |s| * hi
    decreases |s|
  {
    if s != [] {
      SumBounds(s[..|s| - 1], lo, hi);
      assert lo <= s[|s| - 1] as int <= hi;
      assert |s| * lo == (|s| - 1) * lo + lo;
      assert |s| * hi == (|s| - 1) * hi + hi;
    }
  }

  /** A product grows with its first factor. */
  lemma {:induction false} MulMonotone(i: nat, k: nat, m: nat)
    requires i <= k
    ensures i * m <= k * m
    decreases k - i
  {
    if i < k {
      MulMonotone(i + 1, k, m);
      assert (i + 1) * m == i * m + m;
    }
  }

  /** Short inputs of small values never overflow: with every value of
      magnitude at most `m` and `|input| * m` within `i64`, every running
      total fits. */
  lemma SmallInputsFit(input: seq<i64>, m: nat)
    requires forall i :: 0 <= i < |input| ==> -(m as int) <= input[i] as int <= m
    requires |input| * m <= I64Max
    ensures NoOverflow(input)
  {
    forall i | 0 <= i <= |input| ensures I64Min <= Sum(input[..i]) <= I64Max {
      SumBounds(input[..i], -(m as int), m);
      MulMonotone(i, |input|, m);
      assert i * -(m as int) == -(i * m);
    }
  }

  /** The data of `main`. */
  const TargetData: seq<i64> := [3, 7, 11, 13]

  /** `main` adds up to 34. */
  lemma TargetTotal()
    ensures NoOverflow(TargetData) && Sum(TargetData) == 34
  {
    SmallInputsFit(TargetData, 13);
    assert TargetData[..3] == [3, 7, 11] && [3, 7, 11][..2] == [3, 7] && [3, 7][..1] == [3];
    assert Sum([3]) == 3 && Sum([3, 7]) == 10 && Sum([3, 7, 11]) == 21;
  }

  /** `main`: the total it prints. */
  method TargetMain() returns (total: Option<i64>)
    ensures total == Some(34)
  {
    TargetTotal();
    total := ComputeTotal(TargetData);
  }
}
