/**
 * Shared vocabulary of the model: instants, an Option type, the JavaScript
 * number operations the sources rely on (Math.round, Math.trunc, the `%`
 * remainder), decimal rendering of integers, and the sequence operations the
 * sources borrow from the JavaScript runtime (filter, stable sort, slice,
 * grouping into a Map in insertion order).
 */
module Common {

  /** An instant: milliseconds since the Unix epoch (Date.getTime()). */
  type Instant = int

  const MS_PER_SECOND: int := 1000
  const MS_PER_MINUTE: int := 60 * 1000
  const MS_PER_HOUR: int := 60 * 60 * 1000
  const MS_PER_DAY: int := 24 * 60 * 60 * 1000

  datatype Option<T> = None | Some(value: T) {
    function GetOr(default: T): T {
      match this
      case Some(v) => v
      case None => default
    }
  }

  datatype Result<T> = Success(value: T) | Failure(error: string)

  // ---------------------------------------------------------------------
  // Numbers

  function Abs(x: real): (r: real)
    ensures r >= 0.0 && (r == x || r == -x)
  {
    if x < 0.0 then -x else x
  }

  function Max(a: real, b: real): (r: real)
    ensures r >= a && r >= b && (r == a || r == b)
  {
    if a >= b then a else b
  }

  function Min(a: real, b: real): (r: real)
    ensures r <= a && r <= b && (r == a || r == b)
  {
    if a <= b then a else b
  }

  /** Math.round: the nearest integer, a half rounded towards +infinity. */
  function Round(x: real): (r: int)
    ensures r as real <= x + 0.5 < r as real + 1.0
  {
    (x + 0.5).Floor
  }

  lemma RoundMonotone(x: real, y: real)
    requires x <= y
    ensures Round(x) <= Round(y)
  {
  }

  /** Rounding a value that lies between two integers stays between them. */
  lemma RoundBetween(x: real, lo: int, hi: int)
    requires lo as real <= x <= hi as real
    ensures lo <= Round(x) <= hi
  {
  }

  lemma RoundOfInt(n: int)
    ensures Round(n as real) == n
  {
  }

  /** Math.trunc: drops the fractional part, towards zero. */
  function Trunc(x: real): (r: int)
    ensures x >= 0.0 ==> r as real <= x < r as real + 1.0
    ensures x < 0.0 ==> r as real - 1.0 < x <= r as real
  {
    if x >= 0.0 then x.Floor else -((-x).Floor)
  }

  lemma DivTimes(x: real, m: real)
    requires m > 0.0
    ensures (x / m) * m == x
  {
  }

  lemma MulLe(a: real, b: real, m: real)
    requires a <= b && m > 0.0
    ensures a * m <= b * m
  {
  }

  lemma MulLt(a: real, b: real, m: real)
    requires a < b && m > 0.0
    ensures a * m < b * m
  {
  }

  function Pow2(n: nat): (r: nat)
    ensures r >= 1
  {
    if n == 0 then 1 else 2 * Pow2(n - 1)
  }

  /** A quotient of a part by its whole lies in [0, 1]. */
  lemma DivBounds(a: real, d: real)
    requires d > 0.0 && 0.0 <= a <= d
    ensures 0.0 <= a / d <= 1.0
  {
    DivTimes(a, d);
    DivMonotone(0.0, a, d);
    DivMonotone(a, d, d);
  }

  /** Dividing by a positive number keeps the order. */
  lemma DivMonotone(a: real, b: real, d: real)
    requires d > 0.0 && a <= b
    ensures a / d <= b / d
  {
    DivTimes(a, d);
    DivTimes(b, d);
  }

  /** q*m <= x < (q+1)*m for q the floor of x/m. */
  lemma FloorDivBounds(x: real, m: real)
    requires m > 0.0
    ensures (x / m).Floor as real * m <= x < ((x / m).Floor + 1) as real * m
  {
    var q := x / m;
    var f := q.Floor as real;
    DivTimes(x, m);
    MulLe(f, q, m);
    var g := f + 1.0;
    MulLt(q, g, m);
    assert q * m == x;
    assert q * m < g * m;
    assert f * m <= x;
    assert x < g * m;
    assert (q.Floor + 1) as real == f + 1.0;
  }

  /** JavaScript's `x % m` on numbers: the remainder takes the sign of x. */
  function JsRem(x: real, m: real): (r: real)
    requires m > 0.0
    ensures x >= 0.0 ==> 0.0 <= r < m
    ensures x < 0.0 ==> -m < r <= 0.0
  {
    FloorDivBounds(x, m);
    FloorDivBounds(-x, m);
    assert (-x) / m == -(x / m);
    x - Trunc(x / m) as real * m
  }

  /** The remainder of x modulo m in [0, m): x minus the largest multiple of m not above x. */
  function FloorMod(x: real, m: real): (r: real)
    requires m > 0.0
    ensures 0.0 <= r < m
  {
    FloorDivBounds(x, m);
    x - (x / m).Floor as real * m
  }

  /** The JavaScript remainder differs from x by a whole multiple of m. */
  lemma JsRemMultiple(x: real, m: real)
    requires m > 0.0
    ensures (x - JsRem(x, m)) / m == Trunc(x / m) as real
  {
  }

  /** On a non-negative dividend the JavaScript remainder is the floor remainder. */
  lemma JsRemNonNegative(x: real, m: real)
    requires m > 0.0 && x >= 0.0
    ensures JsRem(x, m) == FloorMod(x, m)
  {
  }

  /** Shifting by one period does not change the floor remainder. */
  lemma FloorModPeriodic(x: real, m: real)
    requires m > 0.0
    ensures FloorMod(x + m, m) == FloorMod(x, m)
  {
    var q := x / m;
    assert (x + m) / m == q + m / m;
    assert (x + m) / m == q + 1.0;
    assert (q + 1.0).Floor == q.Floor + 1;
  }

  /** `((x % m) + m) % m`, the idiom the sources use to reduce an angle, is the floor remainder. */
  lemma JsRemShiftIsFloorMod(x: real, m: real)
    requires m > 0.0
    ensures JsRem(JsRem(x, m) + m, m) == FloorMod(x, m)
  {
    var t := Trunc(x / m);
    var r := JsRem(x, m);
    assert x - r == t as real * m by { JsRemMultiple(x, m); }
    JsRemNonNegative(r + m, m);
    if r < 0.0 {
      assert 0.0 < r + m < m;
      assert FloorMod(r + m, m) == r + m by {
        FloorModOfDecomposition(r + m, m, 0, r + m);
      }
      // x = (t - 1) * m + (r + m) with r + m in [0, m)
      assert x == (t - 1) as real * m + (r + m);
      FloorModOfDecomposition(x, m, t - 1, r + m);
    } else {
      assert 0.0 <= r < m;
      assert m <= r + m < 2.0 * m;
      assert FloorMod(r + m, m) == r by {
        FloorModOfDecomposition(r + m, m, 1, r);
      }
      assert x == t as real * m + r;
      FloorModOfDecomposition(x, m, t, r);
    }
  }

  /** If x = k*m + r with r in [0, m) then r is the floor remainder. */
  lemma FloorModOfDecomposition(x: real, m: real, k: int, r: real)
    requires m > 0.0 && 0.0 <= r < m && x == k as real * m + r
    ensures FloorMod(x, m) == r
  {
    var q := x / m;
    DivTimes(r, m);
    assert q == k as real + r / m;
    MulLe(0.0, r / m, m);
    if r / m >= 1.0 {
      MulLe(1.0, r / m, m);
      assert false;
    }
    assert q.Floor == k;
  }

  /**
   * `x % 360`, then `+ 360` when negative: an angle reduced to [0, 360),
   * as solar-longitude.ts and zodiac.ts both do.
   */
  function NormaliseDegrees(x: real): (r: real)
    ensures 0.0 <= r < 360.0
  {
    var l := JsRem(x, 360.0);
    if l < 0.0 then l + 360.0 else l
  }

  /** The reduction is the floor remainder: it keeps the angle's class modulo 360. */
  lemma NormaliseIsFloorMod(x: real)
    ensures NormaliseDegrees(x) == FloorMod(x, 360.0)
  {
    var t := Trunc(x / 360.0);
    var l := JsRem(x, 360.0);
    JsRemMultiple(x, 360.0);
    assert x - l == t as real * 360.0;
    if l < 0.0 {
      FloorModOfDecomposition(x, 360.0, t - 1, l + 360.0);
    } else {
      FloorModOfDecomposition(x, 360.0, t, l);
    }
  }

  /** A whole turn more gives the same reduced angle. */
  lemma NormalisePeriodic(x: real)
    ensures NormaliseDegrees(x + 360.0) == NormaliseDegrees(x)
  {
    NormaliseIsFloorMod(x);
    NormaliseIsFloorMod(x + 360.0);
    FloorModPeriodic(x, 360.0);
  }

  // ---------------------------------------------------------------------
  // Decimal rendering (what a template literal `${n}` prints for a whole number)

  function DigitChar(d: nat): (c: char)
    requires d < 10
    ensures '0' <= c <= '9' && c as int - '0' as int == d
  {
    ('0' as int + d) as char
  }

  predicate IsDigit(c: char) {
    '0' <= c <= '9'
  }

  predicate AllDigits(s: string) {
    forall i :: 0 <= i < |s| ==> IsDigit(s[i])
  }

  function NatToString(n: nat): (s: string)
    ensures |s| >= 1 && AllDigits(s)
  {
    if n < 10 then [DigitChar(n)] else NatToString(n / 10) + [DigitChar(n % 10)]
  }

  /** Exactly three digits, with leading zeros. */
  function ThreeDigits(n: nat): (s: string)
    requires n < 1000
    ensures |s| == 3 && AllDigits(s)
  {
    [DigitChar(n / 100), DigitChar(n / 10 % 10), DigitChar(n % 10)]
  }

  function IntToString(n: int): (s: string)
    ensures |s| >= 1
  {
    if n < 0 then "-" + NatToString(-n) else NatToString(n)
  }

  /** Number(s) for a string of decimal digits. */
  function DigitsValue(s: string): nat
    requires AllDigits(s)
  {
    if |s| == 0 then 0 else DigitsValue(s[..|s| - 1]) * 10 + (s[|s| - 1] as int - '0' as int)
  }

  /** Reading back a rendered number gives the number. */
  lemma {:induction false} NatToStringValue(n: nat)
    ensures DigitsValue(NatToString(n)) == n
  {
    if n >= 10 {
      var s := NatToString(n);
      assert s[..|s| - 1] == NatToString(n / 10);
      NatToStringValue(n / 10);
    }
  }

  // ---------------------------------------------------------------------
  // Sequences

  function Last<T>(s: seq<T>): T
    requires |s| > 0
  {
    s[|s| - 1]
  }

  function Init<T>(s: seq<T>): seq<T>
    requires |s| > 0
  {
    s[..|s| - 1]
  }

  /** Array.prototype.filter: the elements satisfying p, in order. */
  function Filter<T>(s: seq<T>, p: T -> bool): (r: seq<T>)
    ensures |r| <= |s|
    ensures forall x :: x in r ==> x in s && p(x)
  {
    if |s| == 0 then [] else Filter(Init(s), p) + (if p(Last(s)) then [Last(s)] else [])
  }

  lemma {:induction false} FilterComplete<T>(s: seq<T>, p: T -> bool, x: T)
    requires x in s && p(x)
    ensures x in Filter(s, p)
  {
    if x != Last(s) {
      assert x in Init(s);
      FilterComplete(Init(s), p, x);
    }
  }

  lemma {:induction false} FilterAppend<T>(a: seq<T>, b: seq<T>, p: T -> bool)
    ensures Filter(a + b, p) == Filter(a, p) + Filter(b, p)
  {
    if |b| > 0 {
      assert Init(a + b) == a + Init(b);
      FilterAppend(a, Init(b), p);
    } else {
      assert a + b == a;
    }
  }

  /** Array.prototype.map. */
  function Map<T, U>(s: seq<T>, f: T -> U): (r: seq<U>)
    ensures |r| == |s| && forall i :: 0 <= i < |s| ==> r[i] == f(s[i])
  {
    if |s| == 0 then [] else Map(Init(s), f) + [f(Last(s))]
  }

  lemma MapSnoc<T, U>(s: seq<T>, x: T, f: T -> U)
    ensures Map(s + [x], f) == Map(s, f) + [f(x)]
  {
    assert Init(s + [x]) == s && Last(s + [x]) == x;
  }

  /** f(0) + f(1) + ... + f(n - 1): what a loop over i in [0, n) appends to. */
  function Flatten<U>(f: int -> seq<U>, n: int): seq<U>
    decreases n
  {
    if n <= 0 then [] else Flatten(f, n - 1) + f(n - 1)
  }

  lemma {:induction false} FlattenExactly<U>(f: int -> seq<U>, n: int, y: U)
    ensures y in Flatten(f, n) <==> exists i :: 0 <= i < n && y in f(i)
    decreases n
  {
    if n > 0 {
      FlattenExactly(f, n - 1, y);
    }
  }

  /** Appending one element to the input appends its image when it is kept. */
  lemma MapFilterSnoc<T, U>(s: seq<T>, x: T, p: T -> bool, f: T -> U)
    ensures Map(Filter(s + [x], p), f) == Map(Filter(s, p), f) + (if p(x) then [f(x)] else [])
  {
    assert Init(s + [x]) == s && Last(s + [x]) == x;
    if p(x) {
      MapSnoc(Filter(s, p), x, f);
    }
  }

  lemma MapFilterAppend<T, U>(a: seq<T>, b: seq<T>, p: T -> bool, f: T -> U)
    ensures Map(Filter(a + b, p), f) == Map(Filter(a, p), f) + Map(Filter(b, p), f)
  {
    FilterAppend(a, b, p);
    MapAppend(Filter(a, p), Filter(b, p), f);
  }

  lemma MapAppend<T, U>(a: seq<T>, b: seq<T>, f: T -> U)
    ensures Map(a + b, f) == Map(a, f) + Map(b, f)
  {
  }

  lemma ConcatAssociative<T>(a: seq<T>, b: seq<T>, c: seq<T>)
    ensures a + (b + c) == (a + b) + c
  {
  }

  /** The image of the kept elements holds exactly the images of the elements satisfying p. */
  lemma MapFilterExactly<T, U>(s: seq<T>, p: T -> bool, f: T -> U, y: U)
    ensures y in Map(Filter(s, p), f) <==> exists x :: x in s && p(x) && y == f(x)
  {
    var kept := Filter(s, p);
    var image := Map(kept, f);
    if y in image {
      var k :| 0 <= k < |image| && image[k] == y;
      assert kept[k] in kept;
    }
    if exists x :: x in s && p(x) && y == f(x) {
      var x :| x in s && p(x) && y == f(x);
      FilterComplete(s, p, x);
      var k :| 0 <= k < |kept| && kept[k] == x;
      assert image[k] == y;
    }
  }

  /** The kept images are exactly the images that satisfy p. */
  lemma FilterOfMapExactly<T, U>(s: seq<T>, f: T -> U, p: U -> bool, y: U)
    ensures y in Filter(Map(s, f), p) <==> exists x :: x in s && y == f(x) && p(y)
  {
    var image := Map(s, f);
    if exists x :: x in s && y == f(x) && p(y) {
      var x :| x in s && y == f(x) && p(y);
      var k :| 0 <= k < |s| && s[k] == x;
      assert image[k] == y;
      FilterComplete(image, p, y);
    }
    if y in Filter(image, p) {
      var k :| 0 <= k < |image| && image[k] == y;
      assert s[k] in s;
    }
  }

  ghost predicate SortedBy<T>(s: seq<T>, key: T -> int) {
    forall i, j :: 0 <= i < j < |s| ==> key(s[i]) <= key(s[j])
  }

  /** An element occurs at most once in a sequence without repetitions. */
  lemma {:induction false} DistinctCountAtMostOne<T>(s: seq<T>, x: T)
    requires forall i, j :: 0 <= i < j < |s| ==> s[i] != s[j]
    ensures multiset(s)[x] <= 1
  {
    if |s| > 0 {
      assert s == Init(s) + [Last(s)];
      DistinctCountAtMostOne(Init(s), x);
      if x == Last(s) && x in Init(s) {
        assert false;
      }
    }
  }

  /** An element found at two positions occurs at least twice. */
  lemma RepeatCount<T>(t: seq<T>, i: int, j: int)
    requires 0 <= i < j < |t| && t[i] == t[j]
    ensures multiset(t)[t[i]] >= 2
  {
    assert t == t[..j] + [t[j]] + t[j + 1..];
    assert t[..j][i] == t[i];
    assert multiset(t[..j])[t[i]] >= 1;
  }

  /** If key separates the elements of s, it also separates those of every permutation of s. */
  lemma PermutationKeepsDistinctKeys<T>(s: seq<T>, t: seq<T>, key: T -> int)
    requires multiset(s) == multiset(t)
    requires forall i, j :: 0 <= i < j < |s| ==> key(s[i]) != key(s[j])
    ensures forall i, j :: 0 <= i < j < |t| ==> key(t[i]) != key(t[j])
  {
    forall i, j | 0 <= i < j < |t| ensures key(t[i]) != key(t[j]) {
      if key(t[i]) == key(t[j]) {
        assert t[i] in multiset(s) && t[j] in multiset(s);
        var p :| 0 <= p < |s| && s[p] == t[i];
        var q :| 0 <= q < |s| && s[q] == t[j];
        assert p == q;
        RepeatCount(t, i, j);
        DistinctCountAtMostOne(s, t[i]);
        assert false;
      }
    }
  }

  /** Places x after every element whose key is not above key(x). */
  function InsertAfter<T(==)>(s: seq<T>, x: T, key: T -> int): (r: seq<T>)
    ensures multiset(r) == multiset(s) + multiset{x}
    ensures |r| == |s| + 1
  {
    if |s| == 0 || key(Last(s)) <= key(x) then s + [x]
    else
      var r := InsertAfter(Init(s), x, key) + [Last(s)];
      assert s == Init(s) + [Last(s)];
      r
  }

  lemma {:induction false} InsertAfterSorted<T>(s: seq<T>, x: T, key: T -> int)
    requires SortedBy(s, key)
    ensures SortedBy(InsertAfter(s, x, key), key)
    ensures |s| == 0 || key(s[0]) > key(x) ==> InsertAfter(s, x, key)[0] == x
    ensures |s| > 0 && key(s[0]) <= key(x) ==> InsertAfter(s, x, key)[0] == s[0]
    ensures forall y :: y in InsertAfter(s, x, key) ==> y == x || y in s
  {
    var r := InsertAfter(s, x, key);
    if |s| == 0 || key(Last(s)) <= key(x) {
      assert r == s + [x];
    } else {
      var t := InsertAfter(Init(s), x, key);
      InsertAfterSorted(Init(s), x, key);
      assert r == t + [Last(s)];
      forall y | y in t ensures key(y) <= key(Last(s)) {
        if y != x {
          var j :| 0 <= j < |Init(s)| && Init(s)[j] == y;
          assert s[j] == y;
        }
      }
      forall i, j | 0 <= i < j < |r| ensures key(r[i]) <= key(r[j]) {
        if j == |r| - 1 {
          assert r[i] in t;
        }
      }
      if |s| == 1 {
        assert t == [x];
      } else {
        assert Init(s)[0] == s[0];
      }
    }
  }

  /**
   * Array.prototype.sort with a comparator `key(a) - key(b)`: a stable sort,
   * here an insertion sort that inserts each later element after the equal
   * keys already placed.
   */
  function SortBy<T(==)>(s: seq<T>, key: T -> int): (r: seq<T>)
    ensures multiset(r) == multiset(s)
    ensures |r| == |s|
    ensures SortedBy(r, key)
  {
    if |s| == 0 then []
    else
      assert s == Init(s) + [Last(s)];
      InsertAfterSorted(SortBy(Init(s), key), Last(s), key);
      InsertAfter(SortBy(Init(s), key), Last(s), key)
  }

  lemma SortByMembers<T>(s: seq<T>, key: T -> int, x: T)
    ensures x in SortBy(s, key) <==> x in s
  {
    assert x in SortBy(s, key) <==> x in multiset(SortBy(s, key));
  }

  /** The first n elements of a stable sort are elements of s, and every element left out is not below any kept. */
  lemma SortedPrefix<T>(s: seq<T>, key: T -> int, n: nat)
    requires n <= |s|
    ensures forall x :: x in SortBy(s, key)[..n] ==> x in s
    ensures forall x :: x in s ==> x in SortBy(s, key)[..n] || forall e :: e in SortBy(s, key)[..n] ==> key(e) <= key(x)
  {
    var sorted := SortBy(s, key);
    var t := sorted[..n];
    forall x | x in t ensures x in s {
      SortByMembers(s, key, x);
    }
    forall x | x in s ensures x in t || forall e :: e in t ==> key(e) <= key(x) {
      SortByMembers(s, key, x);
      var p :| 0 <= p < |sorted| && sorted[p] == x;
      if p < n {
        assert t[p] == x;
      } else {
        forall e | e in t ensures key(e) <= key(x) {
          var q :| 0 <= q < n && t[q] == e;
          assert key(sorted[q]) <= key(sorted[p]);
        }
      }
    }
  }

  /** The index of the first element with the smallest key. */
  function FirstMinIndex<T>(s: seq<T>, key: T -> int): (k: nat)
    requires |s| > 0
    ensures k < |s|
    ensures forall j :: 0 <= j < |s| ==> key(s[k]) <= key(s[j])
    ensures forall j :: 0 <= j < k ==> key(s[j]) > key(s[k])
  {
    if |s| == 1 then 0
    else
      var k := FirstMinIndex(Init(s), key);
      if key(Last(s)) < key(s[k]) then |s| - 1 else k
  }

  /** One more element: it becomes the first minimum exactly when its key is strictly below the old one's. */
  lemma FirstMinIndexStep<T>(s: seq<T>, i: nat, key: T -> int)
    requires 0 < i < |s|
    ensures FirstMinIndex(s[..i + 1], key) ==
      if key(s[i]) < key(s[FirstMinIndex(s[..i], key)]) then i else FirstMinIndex(s[..i], key)
  {
    assert Init(s[..i + 1]) == s[..i] && Last(s[..i + 1]) == s[i];
    var k := FirstMinIndex(s[..i], key);
    assert s[..i + 1][k] == s[..i][k] == s[k];
  }

  /**
   * The loop keeping the first element whose evaluation scores strictly
   * higher than the best so far: it ends on the first element of smallest
   * key, for a key that is the negated score.
   */
  method FirstBest<T, R>(s: seq<T>, eval: T -> R, score: R -> int, key: T -> int) returns (best: R, bestItem: T)
    requires |s| > 0
    requires forall x :: key(x) == -score(eval(x))
    ensures best == eval(s[FirstMinIndex(s, key)]) && bestItem == s[FirstMinIndex(s, key)]
  {
    var current: Option<R> := None;
    var currentItem := s[0];
    ghost var k := 0;
    var i := 0;
    while i < |s|
      invariant 0 <= i <= |s|
      invariant i == 0 ==> current.None?
      invariant i > 0 ==> k == FirstMinIndex(s[..i], key) && current == Some(eval(s[k])) && currentItem == s[k]
    {
      var item := s[i];
      var scored := eval(item);
      if i == 0 {
        assert s[..1] == [s[0]];
      } else {
        FirstMinIndexStep(s, i, key);
      }
      if current.None? || score(scored) > score(current.value) {
        current := Some(scored);
        currentItem := item;
        k := i;
      }
      i := i + 1;
    }
    assert s[..i] == s;
    best, bestItem := current.value, currentItem;
  }

  /** Because the sort is stable, its first element is the first of the smallest. */
  lemma {:induction false} SortByHead<T>(s: seq<T>, key: T -> int)
    requires |s| > 0
    ensures SortBy(s, key)[0] == s[FirstMinIndex(s, key)]
  {
    if |s| > 1 {
      SortByHead(Init(s), key);
      var k := FirstMinIndex(Init(s), key);
      assert SortBy(Init(s), key)[0] == s[k];
      InsertAfterSorted(SortBy(Init(s), key), Last(s), key);
    } else {
      InsertAfterSorted([], s[0], key);
    }
  }

  /** The end index of Array.prototype.slice(0, count) on a sequence of length n. */
  function SliceEnd(count: int, n: nat): (e: nat)
    ensures e <= n
    ensures 0 <= count ==> e == if count <= n then count else n
    ensures count < 0 ==> e == if n + count >= 0 then n + count else 0
  {
    if count < 0 then (if n + count >= 0 then n + count else 0)
    else if count <= n then count else n
  }

  // ---------------------------------------------------------------------
  // Grouping into a Map, keys in order of first appearance

  /** The distinct keys of s in order of first appearance (a Map's key order). */
  function DistinctKeys<T>(s: seq<T>, key: T -> int): (ks: seq<int>)
    ensures forall i, j :: 0 <= i < j < |ks| ==> ks[i] != ks[j]
    ensures forall k :: k in ks <==> exists i :: 0 <= i < |s| && key(s[i]) == k
  {
    if |s| == 0 then []
    else
      var ks := DistinctKeys(Init(s), key);
      assert forall i :: 0 <= i < |s| - 1 ==> s[i] == Init(s)[i];
      if key(Last(s)) in ks then ks else ks + [key(Last(s))]
  }

  /** The members of s whose key is k, in order. */
  function Group<T>(s: seq<T>, key: T -> int, k: int): seq<T> {
    Filter(s, x => key(x) == k)
  }

  lemma GroupNonEmpty<T>(s: seq<T>, key: T -> int, k: int)
    requires k in DistinctKeys(s, key)
    ensures |Group(s, key, k)| > 0
  {
    var i :| 0 <= i < |s| && key(s[i]) == k;
    FilterComplete(s, x => key(x) == k, s[i]);
  }

  lemma GroupSnoc<T>(s: seq<T>, x: T, key: T -> int, k: int)
    ensures Group(s + [x], key, k) == Group(s, key, k) + (if key(x) == k then [x] else [])
  {
    assert Init(s + [x]) == s && Last(s + [x]) == x;
  }

  lemma GroupAbsent<T>(s: seq<T>, key: T -> int, k: int)
    requires k !in DistinctKeys(s, key)
    ensures Group(s, key, k) == []
  {
  }

  /** Builds the Map<key, group> of a `for … of` loop that pushes each element onto its key's group. */
  method GroupByKey<T>(s: seq<T>, key: T -> int) returns (keys: seq<int>, groups: map<int, seq<T>>)
    ensures keys == DistinctKeys(s, key)
    ensures groups.Keys == set k | k in keys
    ensures forall k :: k in groups ==> groups[k] == Group(s, key, k)
  {
    keys, groups := [], map[];
    var i := 0;
    while i < |s|
      invariant 0 <= i <= |s|
      invariant keys == DistinctKeys(s[..i], key)
      invariant groups.Keys == set k | k in keys
      invariant forall k :: k in groups ==> groups[k] == Group(s[..i], key, k)
    {
      keys, groups := GroupOne(s[..i], s[i], key, keys, groups);
      assert s[..i + 1] == s[..i] + [s[i]];
      i := i + 1;
    }
    assert s[..i] == s;
  }

  /** One step of the grouping loop: `(map.get(k) ?? new group).push(x)`. */
  method GroupOne<T>(done: seq<T>, x: T, key: T -> int, keys: seq<int>, groups: map<int, seq<T>>)
    returns (keys': seq<int>, groups': map<int, seq<T>>)
    requires keys == DistinctKeys(done, key)
    requires groups.Keys == set k | k in keys
    requires forall k :: k in groups ==> groups[k] == Group(done, key, k)
    ensures keys' == DistinctKeys(done + [x], key)
    ensures groups'.Keys == set k | k in keys'
    ensures forall k :: k in groups' ==> groups'[k] == Group(done + [x], key, k)
  {
    var k := key(x);
    assert Init(done + [x]) == done && Last(done + [x]) == x;
    if k in groups {
      groups' := groups[k := groups[k] + [x]];
      keys' := keys;
    } else {
      GroupAbsent(done, key, k);
      groups' := groups[k := [x]];
      keys' := keys + [k];
    }
    forall k' | k' in groups' ensures groups'[k'] == Group(done + [x], key, k') {
      GroupSnoc(done, x, key, k');
    }
  }
}
