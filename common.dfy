/** Shared vocabulary: optional values, day arithmetic on millisecond
    timestamps, the JavaScript `||` defaulting idiom, and the two list
    combinators (sum and filter) that the components use everywhere. */
module Common {

  datatype Option<+T> = None | Some(value: T)

  /** `1000 * 60 * 60 * 24`: one day in milliseconds. */
  const DAY_MS: int := 86_400_000

  /** `Math.ceil(ms / DAY_MS)` for an integer number of milliseconds. */
  function DaysCeil(ms: int): (r: int)
    ensures (r - 1) * DAY_MS < ms <= r * DAY_MS
  {
    -((-ms) / DAY_MS)
  }

  /** `Math.ceil((new Date(date).getTime() - now) / day)`: the whole days
      until `date`, rounded up; `None` is the `NaN` of a date that does not
      parse, since neither page guards against one. */
  function DaysUntil(date: string, now: int, dateOf: string -> Option<int>): (r: Option<int>)
    ensures r.None? <==> dateOf(date).None?
    ensures r.Some? ==> (r.value - 1) * DAY_MS < dateOf(date).value - now <= r.value * DAY_MS
  {
    match dateOf(date)
    case None => None
    case Some(t) => Some(DaysCeil(t - now))
  }

  /** `s || null` and `s || undefined` on a text: nothing exactly for the
      empty text, the text itself otherwise. */
  function TextOrNone(s: string): (r: Option<string>)
    ensures r.None? <==> s == []
    ensures r.Some? ==> r.value == s
  {
    if s == [] then None else Some(s)
  }

  /** The calendar day number of instant `t` in a zone `offset` milliseconds
      ahead of UTC (what `toDateString()` compares). */
  function LocalDay(t: int, offset: int): int
  {
    (t + offset) / DAY_MS
  }

  /** Two instants on the same calendar day are less than a day apart. */
  lemma SameDayIsWithinADay(a: int, b: int, offset: int)
    requires LocalDay(a, offset) == LocalDay(b, offset)
    ensures b - DAY_MS < a < b + DAY_MS
  {
    var d := LocalDay(b, offset);
    assert d * DAY_MS <= a + offset < d * DAY_MS + DAY_MS;
    assert d * DAY_MS <= b + offset < d * DAY_MS + DAY_MS;
  }

  /** The string `s || fallback`: the empty string is falsy. */
  function StrOr(s: string, fallback: string): (r: string)
    ensures r == s || r == fallback
    ensures r == fallback <==> s == [] || s == fallback
  {
    if s != [] then s else fallback
  }

  /** The number `n || fallback`: zero (and a missing or NaN value, which the
      model encodes as zero) is falsy. */
  function IntOr(n: int, fallback: int): (r: int)
    ensures n != 0 ==> r == n
    ensures n == 0 ==> r == fallback
  {
    if n != 0 then n else fallback
  }

  /** `o || ''` for a nullable string column. */
  function OrEmpty(o: Option<string>): (r: string)
    ensures o.None? ==> r == []
    ensures o.Some? ==> r == o.value
  {
    match o
    case None => []
    case Some(s) => s
  }

  /** `xs.reduce((sum, x) => sum + f(x), 0)`. */
  function Sum<T>(xs: seq<T>, f: T -> int): int
  {
    if |xs| == 0 then 0 else f(xs[0]) + Sum(xs[1..], f)
  }

  lemma {:induction false} SumConcat<T>(xs: seq<T>, ys: seq<T>, f: T -> int)
    ensures Sum(xs + ys, f) == Sum(xs, f) + Sum(ys, f)
  {
    if |xs| == 0 {
      assert xs + ys == ys;
    } else {
      assert (xs + ys)[1..] == xs[1..] + ys;
      SumConcat(xs[1..], ys, f);
    }
  }

  /** Replacing element `k` changes the sum by the difference of the two terms. */
  lemma {:induction false} SumReplace<T>(xs: seq<T>, k: nat, x: T, f: T -> int)
    requires k < |xs|
    ensures Sum(xs[k := x], f) == Sum(xs, f) - f(xs[k]) + f(x)
  {
    if k > 0 {
      assert xs[k := x][1..] == xs[1..][k - 1 := x];
      SumReplace(xs[1..], k - 1, x, f);
    }
  }

  /** Terms that agree on every element sum alike. */
  lemma {:induction false} SumAgree<T>(xs: seq<T>, f: T -> int, g: T -> int)
    requires forall i :: 0 <= i < |xs| ==> f(xs[i]) == g(xs[i])
    ensures Sum(xs, f) == Sum(xs, g)
  {
    if |xs| > 0 {
      SumAgree(xs[1..], f, g);
    }
  }

  /** A sum of terms that are all non-negative is non-negative. */
  lemma {:induction false} SumNonNegative<T>(xs: seq<T>, f: T -> int)
    requires forall i :: 0 <= i < |xs| ==> f(xs[i]) >= 0
    ensures Sum(xs, f) >= 0
  {
    if |xs| > 0 {
      SumNonNegative(xs[1..], f);
    }
  }

  /** `xs.filter(p)`: the stable sub-sequence of the elements satisfying `p`. */
  function Filter<T(!new)>(xs: seq<T>, p: T -> bool): (r: seq<T>)
    ensures |r| <= |xs|
    ensures forall i :: 0 <= i < |r| ==> p(r[i])
    ensures forall x :: x in r <==> x in xs && p(x)
  {
    if |xs| == 0 then []
    else if p(xs[0]) then [xs[0]] + Filter(xs[1..], p)
    else Filter(xs[1..], p)
  }

  /** Filtering distributes over concatenation, so it keeps the input order. */
  lemma {:induction false} FilterConcat<T(!new)>(xs: seq<T>, ys: seq<T>, p: T -> bool)
    ensures Filter(xs + ys, p) == Filter(xs, p) + Filter(ys, p)
  {
    if |xs| == 0 {
      assert xs + ys == ys;
    } else {
      assert (xs + ys)[1..] == xs[1..] + ys;
      FilterConcat(xs[1..], ys, p);
    }
  }

  /** A filter that every element passes returns the input itself. */
  lemma {:induction false} FilterKeepsAll<T(!new)>(xs: seq<T>, p: T -> bool)
    requires forall i :: 0 <= i < |xs| ==> p(xs[i])
    ensures Filter(xs, p) == xs
  {
    if |xs| > 0 {
      FilterKeepsAll(xs[1..], p);
    }
  }

  /** When `q` is the negation of `p`, every element passes exactly one of them. */
  lemma {:induction false} FilterSplitsCount<T(!new)>(xs: seq<T>, p: T -> bool, q: T -> bool)
    requires forall i :: 0 <= i < |xs| ==> q(xs[i]) == !p(xs[i])
    ensures |Filter(xs, p)| + |Filter(xs, q)| == |xs|
  {
    if |xs| > 0 {
      FilterSplitsCount(xs[1..], p, q);
    }
  }

  /** Predicates that agree on every element filter alike. */
  lemma {:induction false} FilterAgree<T(!new)>(xs: seq<T>, p: T -> bool, q: T -> bool)
    requires forall i :: 0 <= i < |xs| ==> p(xs[i]) == q(xs[i])
    ensures Filter(xs, p) == Filter(xs, q)
  {
    if |xs| > 0 {
      FilterAgree(xs[1..], p, q);
    }
  }

  /** A stronger predicate keeps a sub-list of the weaker one's result. */
  lemma {:induction false} FilterMonotone<T(!new)>(xs: seq<T>, p: T -> bool, q: T -> bool)
    requires forall i :: 0 <= i < |xs| ==> p(xs[i]) ==> q(xs[i])
    ensures |Filter(xs, p)| <= |Filter(xs, q)|
    ensures forall x :: x in Filter(xs, p) ==> x in Filter(xs, q)
  {
    if |xs| > 0 {
      FilterMonotone(xs[1..], p, q);
    }
  }

  /** Taking one term out of a sum. */
  lemma SumRemove<T>(xs: seq<T>, k: nat, f: T -> int)
    requires k < |xs|
    ensures Sum(xs, f) == f(xs[k]) + Sum(xs[..k] + xs[k + 1..], f)
  {
    assert xs == xs[..k] + ([xs[k]] + xs[k + 1..]);
    SumConcat(xs[..k], [xs[k]] + xs[k + 1..], f);
    SumConcat(xs[..k], xs[k + 1..], f);
    assert ([xs[k]] + xs[k + 1..])[1..] == xs[k + 1..];
  }

  /** Dropping position `k` drops one copy of its element. */
  lemma MultisetRemove<T>(ys: seq<T>, k: nat)
    requires k < |ys|
    ensures multiset(ys[..k] + ys[k + 1..]) == multiset(ys) - multiset{ys[k]}
  {
    assert ys == ys[..k] + [ys[k]] + ys[k + 1..];
  }

  /** Matching the head of `xs` with position `k` of a permutation `ys`
      leaves permutations. */
  lemma PermutationTail<T>(xs: seq<T>, ys: seq<T>, k: nat)
    requires multiset(xs) == multiset(ys) && |xs| > 0 && k < |ys| && ys[k] == xs[0]
    ensures multiset(xs[1..]) == multiset(ys[..k] + ys[k + 1..])
  {
    MultisetRemove(ys, k);
    assert xs == [xs[0]] + xs[1..];
  }

  /** A sum does not depend on the order of its terms. */
  lemma {:induction false} SumPermutation<T>(xs: seq<T>, ys: seq<T>, f: T -> int)
    requires multiset(xs) == multiset(ys)
    ensures Sum(xs, f) == Sum(ys, f)
    decreases |xs|
  {
    if |xs| == 0 {
      assert |ys| == |multiset(ys)| == 0;
    } else {
      assert xs[0] in multiset(ys);
      assert xs[0] in ys;
      var k :| 0 <= k < |ys| && ys[k] == xs[0];
      PermutationTail(xs, ys, k);
      SumPermutation(xs[1..], ys[..k] + ys[k + 1..], f);
      SumRemove(ys, k, f);
    }
  }

  /** Every term between `lo` and `hi` bounds the sum between `n * lo` and `n * hi`. */
  lemma {:induction false} SumBounds<T>(xs: seq<T>, f: T -> int, lo: int, hi: int)
    requires forall i :: 0 <= i < |xs| ==> lo <= f(xs[i]) <= hi
    ensures |xs| * lo <= Sum(xs, f) <= |xs| * hi
  {
    if |xs| > 0 {
      SumBounds(xs[1..], f, lo, hi);
    }
  }

  /** `n > 0 ? total / n : 0` in floating point, taken exactly. */
  function Average(total: int, n: nat): (r: real)
    ensures n == 0 ==> r == 0.0
    ensures n > 0 ==> r * (n as real) == total as real
  {
    if n > 0 then total as real / n as real else 0.0
  }

  /** An average lies between the smallest and the largest term. */
  lemma AverageBounds<T>(xs: seq<T>, f: T -> int, lo: int, hi: int)
    requires |xs| > 0
    requires forall i :: 0 <= i < |xs| ==> lo <= f(xs[i]) <= hi
    ensures lo as real <= Average(Sum(xs, f), |xs|) <= hi as real
  {
    SumBounds(xs, f, lo, hi);
    AverageBetween(Sum(xs, f), |xs|, lo, hi);
  }

  lemma AverageBetween(total: int, n: nat, lo: int, hi: int)
    requires n > 0 && n * lo <= total <= n * hi
    ensures lo as real <= Average(total, n) <= hi as real
  {
    var m := n as real;
    var a := Average(total, n);
    assert (n * lo) as real == m * (lo as real);
    assert (n * hi) as real == m * (hi as real);
    if a < lo as real {
      ScaleStrict(a, lo as real, m);
    }
    if hi as real < a {
      ScaleStrict(hi as real, a, m);
    }
  }

  lemma ScaleStrict(x: real, y: real, n: real)
    requires x < y && n > 0.0
    ensures x * n < y * n
  {
    assert (y - x) * n > 0.0;
  }
}
