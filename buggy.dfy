/** examples/rust/buggy.rs: `compute_average` divides a total by a count
    with Rust's `i64` division, and `main` calls it with a count of zero,
    on purpose, so that the program panics. */
module Buggy {
  import opened Wrappers
  import opened Target

  /** Rust's integer division: the quotient is rounded toward zero. */
  function RustDiv(a: int, b: int): int
    requires b != 0
  {
    var q := (if a < 0 then -a else a) / (if b < 0 then -b else b);
    if (a < 0) != (b < 0) then -q else q
  }

  /** `total / count` on `i64` panics when `count` is zero, and on the
      one quotient that overflows, `i64::MIN / -1`. */
  predicate AverageDefined(total: i64, count: i64)
  {
    count != 0 && !(total as int == I64Min && count == -1)
  }

  /** `compute_average`: `None` for the panic, otherwise the quotient
      rounded toward zero. The remainder `total - avg * count` is smaller
      than `count` in magnitude and has the sign of `total`. */
  function ComputeAverage(total: i64, count: i64): (avg: Option<i64>)
    ensures avg.Some? <==> AverageDefined(total, count)
    ensures avg.Some? ==>
              var r := total as int - avg.value as int * count as int;
              && (if r < 0 then -r else r) < (if count < 0 then -(count as int) else count as int)
              && (r == 0 || (r < 0 <==> total < 0))
  {
    if !AverageDefined(total, count) then None
    else
      RustDivSpec(total as int, count as int);
      RustDivBound(total as int, count as int);
      Some(RustDiv(total as int, count as int) as i64)
  }

  /** The quotient and remainder of rounding toward zero. */
  lemma RustDivSpec(a: int, b: int)
    requires b != 0
    ensures var r := a - RustDiv(a, b) * b;
            && (if r < 0 then -r else r) < (if b < 0 then -b else b)
            && (r == 0 || (r < 0 <==> a < 0))
  {
    var n := if a < 0 then -a else a;
    var d := if b < 0 then -b else b;
    var q := n / d;
    assert n == q * d + n % d && 0 <= n % d < d;
    if (a < 0) != (b < 0) {
      assert a - RustDiv(a, b) * b == (if a < 0 then -(n % d) else n % d);
    } else {
      assert a - RustDiv(a, b) * b == (if a < 0 then -(n % d) else n % d);
    }
  }

  /** The quotient fits in an `i64` whenever the division is defined. */
  lemma RustDivBound(a: int, b: int)
    requires b != 0 && I64Min <= a <= I64Max && I64Min <= b <= I64Max
    requires !(a == I64Min && b == -1)
    ensures I64Min <= RustDiv(a, b) <= I64Max
  {
    var n := if a < 0 then -a else a;
    var d := if b < 0 then -b else b;
    if d == 1 {
      assert n / d == n;
    } else {
      HalfAtMost(n, d);
    }
  }

  /** Dividing by at least two at least halves. */
  lemma HalfAtMost(n: nat, d: nat)
    requires d >= 2
    ensures 2 * (n / d) <= n
  {
    var q := n / d;
    assert n == q * d + n % d && n % d >= 0;
    TwiceAtMost(q, d);
  }

  lemma {:induction false} TwiceAtMost(q: nat, d: nat)
    requires d >= 2
    ensures 2 * q <= q * d
    decreases q
  {
    if q > 0 {
      TwiceAtMost(q - 1, d);
      assert q * d == (q - 1) * d + d;
    }
  }

  /** Rounding toward zero differs from Dafny's own division, which rounds
      toward minus infinity for a positive divisor: -7 / 2 is -3 in Rust
      and -4 here. */
  lemma TruncatesTowardZero()
    ensures RustDiv(-7, 2) == -3 && -7 / 2 == -4
    ensures RustDiv(7, -2) == -3 && RustDiv(-7, -2) == 3
  {
  }

  /** The numbers of `main`. */
  const Numbers: seq<i64> := [10, 20, 30]

  /** The count `main` passes. */
  const MainCount: i64 := 0

  /** `main` adds up its numbers to 60 and divides by a count of zero, so
      the program panics. With the count of its three numbers the average
      would be 20. */
  lemma BuggyMainPanics()
    ensures NoOverflow(Numbers) && Sum(Numbers) == 60
    ensures !AverageDefined(60, MainCount) && ComputeAverage(60, MainCount) == None
    ensures ComputeAverage(60, |Numbers| as i64) == Some(20)
  {
    SmallInputsFit(Numbers, 30);
    assert Numbers[..2] == [10, 20] && [10, 20][..1] == [10];
    assert Sum([10]) == 10 && Sum([10, 20]) == 30;
  }
}
