/** Shared vocabulary of the cost model: optional and error results, calendar
    months, sums and population statistics over exact reals, and the stable
    sort and filter that the JavaScript array methods perform. */
module Common {

  datatype Option<T> = None | Some(value: T)

  datatype Result<T, E> = Ok(value: T) | Err(error: E)

  /** A month of the year numbered as `Date.getMonth()` numbers it (0 = January). */
  type Month = m: int | 0 <= m < 12

  /** A calendar date reduced to its year and month; the day of the month is
      not modelled (the data holds one observation per month, day <= 28). */
  datatype YearMonth = YearMonth(year: int, month: Month)

  /** Months elapsed since January of year 0: the order `getTime()` induces on such dates. */
  function MonthIndex(d: YearMonth): int
  {
    12 * d.year + d.month
  }

  lemma MonthIndexIsInjective(d: YearMonth, e: YearMonth)
    requires MonthIndex(d) == MonthIndex(e)
    ensures d == e
  {
  }

  /** `date.setMonth(date.getMonth() + k)`: k calendar months later, with year rollover. */
  function AddMonths(d: YearMonth, k: nat): (r: YearMonth)
    ensures MonthIndex(r) == MonthIndex(d) + k
    ensures r.month == (d.month + k) % 12
  {
    YearMonth(d.year + (d.month + k) / 12, (d.month + k) % 12)
  }

  /** Stepping k + 1 months is stepping k months and then one more. */
  lemma AddMonthsStep(d: YearMonth, k: nat)
    ensures AddMonths(d, k + 1) == AddMonths(AddMonths(d, k), 1)
  {
    MonthIndexIsInjective(AddMonths(d, k + 1), AddMonths(AddMonths(d, k), 1));
  }

  /** `rows.map(row => row.average_cost)`: one cost per row, in row order. */
  function CostsOf<T>(rows: seq<T>, cost: T -> real): (costs: seq<real>)
    ensures |costs| == |rows|
    ensures forall i :: 0 <= i < |rows| ==> costs[i] == cost(rows[i])
  {
    seq(|rows|, i requires 0 <= i < |rows| => cost(rows[i]))
  }

  /** `reduce((sum, x) => sum + x, 0)`. */
  function Sum(s: seq<real>): real
  {
    if s == [] then 0.0 else Sum(s[..|s| - 1]) + s[|s| - 1]
  }

  lemma SumAppend(s: seq<real>, x: real)
    ensures Sum(s + [x]) == Sum(s) + x
  {
    assert (s + [x])[..|s|] == s;
  }

  lemma {:induction false} SumOfConstant(s: seq<real>, c: real)
    requires forall i :: 0 <= i < |s| ==> s[i] == c
    ensures Sum(s) == |s| as real * c
  {
    if s != [] {
      SumOfConstant(s[..|s| - 1], c);
    }
  }

  function Mean(s: seq<real>): (m: real)
    requires |s| > 0
    ensures m * |s| as real == Sum(s)
  {
    Sum(s) / |s| as real
  }

  lemma MeanOfConstant(s: seq<real>, c: real)
    requires |s| > 0
    requires forall i :: 0 <= i < |s| ==> s[i] == c
    ensures Mean(s) == c
  {
    SumOfConstant(s, c);
  }

  lemma SquareIsNonNegative(d: real)
    ensures d * d >= 0.0
  {
    if d < 0.0 {
      assert d * d == (-d) * (-d);
    }
  }

  /** A product with a positive factor vanishes only when the other factor does. */
  lemma ZeroProduct(a: real, b: real)
    requires b > 0.0 && a * b == 0.0
    ensures a == 0.0
  {
    CancelFactor(a, b, a * b);
    assert 0.0 / b == a;
  }

  lemma CancelFactor(a: real, b: real, p: real)
    requires b > 0.0 && p == a * b
    ensures p / b == a
  {
  }

  lemma MultiplyMonotone(a: real, b: real, c: real)
    requires a >= b && c >= 0.0
    ensures a * c >= b * c
  {
  }

  lemma MultiplyStrict(a: real, b: real, c: real)
    requires a > b && c > 0.0
    ensures a * c > b * c
  {
  }

  /** Sum of squared deviations from `m`, the numerator of the population variance. */
  function SquaredDeviations(s: seq<real>, m: real): (r: real)
    ensures r >= 0.0
  {
    if s == [] then 0.0
    else
      SquareIsNonNegative(s[|s| - 1] - m);
      SquaredDeviations(s[..|s| - 1], m) + (s[|s| - 1] - m) * (s[|s| - 1] - m)
  }

  /** Population variance: `reduce((sum, v) => sum + (v - mean)^2, 0) / length`. */
  function Variance(s: seq<real>): (v: real)
    requires |s| > 0
    ensures v >= 0.0
  {
    SquaredDeviations(s, Mean(s)) / |s| as real
  }

  lemma {:induction false} SquaredDeviationsOfConstant(s: seq<real>, c: real)
    requires forall i :: 0 <= i < |s| ==> s[i] == c
    ensures SquaredDeviations(s, c) == 0.0
  {
    if s != [] {
      SquaredDeviationsOfConstant(s[..|s| - 1], c);
    }
  }

  /** A constant series has no spread. */
  lemma VarianceOfConstant(s: seq<real>, c: real)
    requires |s| > 0
    requires forall i :: 0 <= i < |s| ==> s[i] == c
    ensures Variance(s) == 0.0
  {
    MeanOfConstant(s, c);
    SquaredDeviationsOfConstant(s, c);
  }

  /** `Math.sqrt`, given as a parameter: a function that maps every
      non-negative real to its non-negative square root. */
  ghost predicate IsSquareRoot(sqrt: real -> real)
  {
    forall x :: 0.0 <= x ==> 0.0 <= sqrt(x) && sqrt(x) * sqrt(x) == x
  }

  lemma SquareRootOfZero(sqrt: real -> real)
    requires IsSquareRoot(sqrt)
    ensures sqrt(0.0) == 0.0
  {
    var r := sqrt(0.0);
    assert 0.0 <= r && r * r == 0.0;
    if r > 0.0 {
      ZeroProduct(r, r);
    }
  }

  function Max(a: real, b: real): (r: real)
    ensures r >= a && r >= b && (r == a || r == b)
  {
    if a >= b then a else b
  }

  function Min(a: real, b: real): (r: real)
    ensures r <= a && r <= b && (r == a || r == b)
  {
    if a <= b then a else b
  }

  /** Ascending order of `key` along `s`. */
  ghost predicate SortedBy<T>(s: seq<T>, key: T -> real)
  {
    forall i, j :: 0 <= i < j < |s| ==> key(s[i]) <= key(s[j])
  }

  /** Places `x` before the first element whose key is not below its own, so
      that an element inserted this way stays ahead of every equal-keyed one. */
  function InsertBy<T>(x: T, s: seq<T>, key: T -> real): (r: seq<T>)
    ensures multiset(r) == multiset(s) + multiset{x}
  {
    if s == [] || key(x) <= key(s[0]) then
      [x] + s
    else
      assert s == [s[0]] + s[1..];
      [s[0]] + InsertBy(x, s[1..], key)
  }

  /** Inserting into an ordered sequence keeps it ordered. */
  lemma {:induction false} InsertByKeepsOrder<T>(x: T, s: seq<T>, key: T -> real)
    requires SortedBy(s, key)
    ensures SortedBy(InsertBy(x, s, key), key)
  {
    if s != [] && key(x) > key(s[0]) {
      var rest := InsertBy(x, s[1..], key);
      assert s == [s[0]] + s[1..];
      InsertByKeepsOrder(x, s[1..], key);
      LowerBoundCarries(s[0], x, s[1..], rest, key);
      assert InsertBy(x, s, key) == [s[0]] + rest;
    }
  }

  /** If `head`'s key bounds `x` and every element of `s` from below, it bounds
      every element of a rearrangement of `s` with `x` added. */
  lemma LowerBoundCarries<T>(head: T, x: T, s: seq<T>, r: seq<T>, key: T -> real)
    requires key(head) <= key(x)
    requires forall i :: 0 <= i < |s| ==> key(head) <= key(s[i])
    requires multiset(r) == multiset(s) + multiset{x}
    ensures forall i :: 0 <= i < |r| ==> key(head) <= key(r[i])
  {
    forall i | 0 <= i < |r|
      ensures key(head) <= key(r[i])
    {
      assert r[i] in multiset(r);
      if r[i] != x {
        assert r[i] in multiset(s);
        var j :| 0 <= j < |s| && s[j] == r[i];
      }
    }
  }

  /** The stable sort `Array.prototype.sort` performs with a comparator
      `(a, b) => key(a) - key(b)`: an insertion sort from the back, each
      element going ahead of the equal-keyed elements that followed it. */
  function SortBy<T>(s: seq<T>, key: T -> real): (r: seq<T>)
    ensures SortedBy(r, key)
    ensures multiset(r) == multiset(s)
    ensures |r| == |s|
  {
    if s == [] then []
    else
      assert s == [s[0]] + s[1..];
      InsertByKeepsOrder(s[0], SortBy(s[1..], key), key);
      InsertBy(s[0], SortBy(s[1..], key), key)
  }

  /** `Array.prototype.filter(p)`: the elements satisfying `p`, in their order. */
  function Keep<T>(s: seq<T>, p: T -> bool): (r: seq<T>)
    ensures |r| <= |s|
  {
    if s == [] then []
    else Keep(s[..|s| - 1], p) + (if p(s[|s| - 1]) then [s[|s| - 1]] else [])
  }

  /** The filter keeps every occurrence of an element `p` accepts and none of
      any other. */
  lemma {:induction false} KeepSelects<T(!new)>(s: seq<T>, p: T -> bool)
    ensures forall x :: multiset(Keep(s, p))[x] == if p(x) then multiset(s)[x] else 0
  {
    if s != [] {
      KeepSelects(s[..|s| - 1], p);
      assert s == s[..|s| - 1] + [s[|s| - 1]];
    }
  }

  /** Filtering a concatenation filters each part. */
  lemma {:induction false} KeepAppend<T>(a: seq<T>, b: seq<T>, p: T -> bool)
    ensures Keep(a + b, p) == Keep(a, p) + Keep(b, p)
  {
    if b == [] {
      assert a + b == a;
    } else {
      var init := b[..|b| - 1];
      var last := b[|b| - 1];
      KeepAppend(a, init, p);
      assert (a + b)[..|a + b| - 1] == a + init && (a + b)[|a + b| - 1] == last;
      assert Keep(a + b, p) == Keep(a + init, p) + (if p(last) then [last] else []);
      assert Keep(b, p) == Keep(init, p) + (if p(last) then [last] else []);
    }
  }

  lemma KeepSingleton<T>(x: T, p: T -> bool)
    ensures Keep([x], p) == if p(x) then [x] else []
  {
    assert [x][..0] == [];
  }

  /** Filtering a sequence with `x` in front. */
  lemma KeepCons<T>(x: T, s: seq<T>, p: T -> bool)
    ensures Keep([x] + s, p) == (if p(x) then [x] else []) + Keep(s, p)
  {
    KeepAppend([x], s, p);
    KeepSingleton(x, p);
  }

  /** Inserting `x` into an ordered sequence leaves the elements whose key is
      `k` in their order, with `x` ahead of them when its own key is `k`. */
  lemma {:induction false} InsertByKeepsKeyClass<T>(x: T, s: seq<T>, key: T -> real, p: T -> bool, k: real)
    requires SortedBy(s, key)
    requires forall y :: p(y) <==> key(y) == k
    ensures Keep(InsertBy(x, s, key), p) == (if p(x) then [x] else []) + Keep(s, p)
  {
    if s == [] || key(x) <= key(s[0]) {
      assert InsertBy(x, s, key) == [x] + s;
      KeepCons(x, s, p);
    } else {
      var rest := s[1..];
      var inserted := InsertBy(x, rest, key);
      assert s == [s[0]] + rest;
      assert InsertBy(x, s, key) == [s[0]] + inserted;
      SortedTail(s, key);
      InsertByKeepsKeyClass(x, rest, key, p, k);
      KeepCons(s[0], inserted, p);
      KeepCons(s[0], rest, p);
      if p(x) {
        assert key(x) == k;
        assert !p(s[0]);
        assert Keep(InsertBy(x, s, key), p) == Keep(inserted, p) == [x] + Keep(rest, p);
        assert Keep(s, p) == Keep(rest, p);
        assert (if p(x) then [x] else []) + Keep(s, p) == [x] + Keep(rest, p);
      } else {
        assert Keep(inserted, p) == [] + Keep(rest, p) == Keep(rest, p);
        assert Keep(InsertBy(x, s, key), p) == Keep(s, p);
        assert (if p(x) then [x] else []) + Keep(s, p) == Keep(s, p);
      }
    }
  }

  lemma SortedTail<T>(s: seq<T>, key: T -> real)
    requires s != [] && SortedBy(s, key)
    ensures SortedBy(s[1..], key)
  {
    forall i, j | 0 <= i < j < |s| - 1
      ensures key(s[1..][i]) <= key(s[1..][j])
    {
      assert s[1..][i] == s[i + 1] && s[1..][j] == s[j + 1];
    }
  }

  /** `SortBy` is stable: the elements sharing any one key value keep their
      relative order. */
  lemma {:induction false} SortByIsStable<T>(s: seq<T>, key: T -> real, p: T -> bool, k: real)
    requires forall y :: p(y) <==> key(y) == k
    ensures Keep(SortBy(s, key), p) == Keep(s, p)
  {
    if s != [] {
      assert s == [s[0]] + s[1..];
      SortByIsStable(s[1..], key, p, k);
      InsertByKeepsKeyClass(s[0], SortBy(s[1..], key), key, p, k);
      KeepCons(s[0], s[1..], p);
    }
  }

  /** `s.filter(y => y === x).length`. */
  function Count<T(==)>(s: seq<T>, x: T): (n: nat)
    ensures n == multiset(s)[x]
  {
    if s == [] then 0
    else
      assert s == s[..|s| - 1] + [s[|s| - 1]];
      Count(s[..|s| - 1], x) + (if s[|s| - 1] == x then 1 else 0)
  }
}
