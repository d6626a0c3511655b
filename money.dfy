/**
 * Amounts of money are BigDecimal values with two decimals (database columns of type
 * decimal(10,2)); here they are whole numbers of cents.  `round(2)` on a quotient of such
 * amounts rounds half away from zero, which `RoundHalfAway` states exactly.
 */
module Money {
  /** The sum of a sequence of amounts. */
  function Sum(s: seq<int>): int
  {
    if s == [] then 0 else Sum(s[..|s| - 1]) + s[|s| - 1]
  }

  lemma {:induction false} SumConcat(a: seq<int>, b: seq<int>)
    ensures Sum(a + b) == Sum(a) + Sum(b)
    decreases |b|
  {
    if b == [] {
      assert a + b == a;
    } else {
      assert (a + b)[..|a + b| - 1] == a + b[..|b| - 1];
      SumConcat(a, b[..|b| - 1]);
    }
  }

  /** `r` is x/n rounded to the nearest integer, a half being rounded away from zero. */
  ghost predicate RoundsHalfAway(x: int, n: int, r: int)
    requires n > 0
  {
    && 2 * (x - r * n) <= n
    && 2 * (r * n - x) <= n
    && (2 * (x - r * n) == n ==> x < 0)
    && (2 * (r * n - x) == n ==> x > 0)
  }

  lemma DivFacts(a: int, d: int)
    requires d > 0
    ensures a == (a / d) * d + a % d && 0 <= a % d < d
  {
  }

  /** The quotient x / n rounded as BigDecimal#round(2) rounds it, for x and n in cents. */
  function RoundHalfAway(x: int, n: int): (r: int)
    requires n > 0
    ensures RoundsHalfAway(x, n, r)
    ensures x >= 0 ==> r >= 0
    ensures x <= 0 ==> r <= 0
  {
    if x >= 0 then
      DivFacts(2 * x + n, 2 * n);
      (2 * x + n) / (2 * n)
    else
      DivFacts(-2 * x + n, 2 * n);
      -((-2 * x + n) / (2 * n))
  }

  /** At most one integer rounds x / n half away from zero. */
  lemma RoundsHalfAwayUnique(x: int, n: int, r: int, r': int)
    requires n > 0
    requires RoundsHalfAway(x, n, r) && RoundsHalfAway(x, n, r')
    ensures r == r'
  {
    if r < r' {
      MultipleGap(r, r', n);
    } else if r > r' {
      MultipleGap(r', r, n);
    }
  }

  /** Two distinct multiples of n lie at least n apart, exactly n when the factors are adjacent. */
  lemma MultipleGap(lo: int, hi: int, n: int)
    requires lo < hi && n > 0
    ensures hi * n - lo * n >= n
    ensures hi * n - lo * n == n || hi * n - lo * n >= 2 * n
  {
    var d := hi - lo;
    assert hi * n - lo * n == d * n;
    if d >= 2 {
      assert d * n >= 2 * n;
    }
  }

  /** Dividing by one unit leaves the amount as it is. */
  lemma RoundHalfAwayByOne(x: int)
    ensures RoundHalfAway(x, 1) == x
  {
  }

  /** Rounding a whole multiple of n gives the exact quotient. */
  lemma RoundHalfAwayExact(q: int, n: int)
    requires n > 0
    ensures RoundHalfAway(q * n, n) == q
  {
    assert RoundsHalfAway(q * n, n, q);
    RoundsHalfAwayUnique(q * n, n, q, RoundHalfAway(q * n, n));
  }

  /** Negating the dividend negates the rounded quotient: rounding is symmetric about zero. */
  lemma RoundHalfAwayNegate(x: int, n: int)
    requires n > 0
    ensures RoundHalfAway(-x, n) == -RoundHalfAway(x, n)
  {
    var r := RoundHalfAway(x, n);
    assert RoundsHalfAway(-x, n, -r);
    RoundsHalfAwayUnique(-x, n, -r, RoundHalfAway(-x, n));
  }

  /** The sum of `f` over the rows of a table. */
  function SumOf<T>(s: seq<T>, f: T -> int): int
  {
    if s == [] then 0 else f(s[0]) + SumOf(s[1..], f)
  }

  lemma {:induction false} SumOfConcat<T>(a: seq<T>, b: seq<T>, f: T -> int)
    ensures SumOf(a + b, f) == SumOf(a, f) + SumOf(b, f)
  {
    if a == [] {
      assert a + b == b;
    } else {
      assert (a + b)[1..] == a[1..] + b;
      SumOfConcat(a[1..], b, f);
    }
  }

  /** Two tables whose rows agree under `f` and `g`, row by row, have the same sum. */
  lemma {:induction false} SumOfSame<T, U>(a: seq<T>, f: T -> int, b: seq<U>, g: U -> int)
    requires |a| == |b|
    requires forall i :: 0 <= i < |a| ==> f(a[i]) == g(b[i])
    ensures SumOf(a, f) == SumOf(b, g)
  {
    if a != [] {
      assert f(a[0]) == g(b[0]);
      SumOfSame(a[1..], f, b[1..], g);
    }
  }

  /** Changing one row of a table changes the sum by what that row's value changed by. */
  lemma {:induction false} SumOfOneChanged<T, U>(a: seq<T>, f: T -> int, b: seq<U>, g: U -> int, k: nat)
    requires |a| == |b| && k < |a|
    requires forall i :: 0 <= i < |a| && i != k ==> f(a[i]) == g(b[i])
    ensures SumOf(b, g) == SumOf(a, f) + g(b[k]) - f(a[k])
  {
    if k == 0 {
      SumOfSame(a[1..], f, b[1..], g);
    } else {
      assert f(a[0]) == g(b[0]);
      SumOfOneChanged(a[1..], f, b[1..], g, k - 1);
    }
  }
}
