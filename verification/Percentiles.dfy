/** Sorting and nearest-rank percentiles of measured times. */
module Percentiles {
  predicate Sorted(xs: seq<real>) {
    forall i, j :: 0 <= i < j < |xs| ==> xs[i] <= xs[j]
  }

  function Insert(x: real, xs: seq<real>): (ys: seq<real>)
    requires Sorted(xs)
    ensures Sorted(ys) && |ys| == |xs| + 1
    ensures forall y :: y in ys ==> y == x || y in xs
  {
    if |xs| == 0 then [x]
    else if x <= xs[0] then [x] + xs
    else
      var rest := Insert(x, xs[1..]);
      assert forall j :: 0 <= j < |rest| ==> rest[j] in rest;
      [xs[0]] + rest
  }

  function Sort(xs: seq<real>): (ys: seq<real>)
    ensures Sorted(ys) && |ys| == |xs|
  {
    if |xs| == 0 then [] else Insert(xs[0], Sort(xs[1..]))
  }

  /** How many elements are at most v. */
  function AtMost(xs: seq<real>, v: real): (n: nat)
    ensures n <= |xs|
  {
    if |xs| == 0 then 0 else (if xs[0] <= v then 1 else 0) + AtMost(xs[1..], v)
  }

  function Below(xs: seq<real>, v: real): (n: nat)
    ensures n <= |xs|
  {
    if |xs| == 0 then 0 else (if xs[0] < v then 1 else 0) + Below(xs[1..], v)
  }

  lemma {:induction false} InsertCounts(x: real, xs: seq<real>, v: real)
    requires Sorted(xs)
    ensures AtMost(Insert(x, xs), v) == AtMost([x] + xs, v) && Below(Insert(x, xs), v) == Below([x] + xs, v)
    decreases |xs|
  {
    assert ([x] + xs)[1..] == xs;
    if |xs| > 0 && !(x <= xs[0]) {
      InsertCounts(x, xs[1..], v);
      assert ([x] + xs[1..])[1..] == xs[1..];
      assert ([xs[0]] + Insert(x, xs[1..]))[1..] == Insert(x, xs[1..]);
    }
  }

  /** Sorting keeps every count. */
  lemma {:induction false} SortCounts(xs: seq<real>, v: real)
    ensures AtMost(Sort(xs), v) == AtMost(xs, v) && Below(Sort(xs), v) == Below(xs, v)
    decreases |xs|
  {
    if |xs| > 0 {
      SortCounts(xs[1..], v);
      InsertCounts(xs[0], Sort(xs[1..]), v);
      assert ([xs[0]] + Sort(xs[1..]))[1..] == Sort(xs[1..]);
    }
  }

  lemma {:induction false} NoneBelow(xs: seq<real>, v: real)
    requires forall i :: 0 <= i < |xs| ==> v <= xs[i]
    ensures Below(xs, v) == 0
    decreases |xs|
  {
    if |xs| > 0 {
      NoneBelow(xs[1..], v);
    }
  }

  /** In a sorted sequence, position i has at least i + 1 elements up to its value and at most i below it. */
  lemma {:induction false} SortedCounts(xs: seq<real>, i: nat)
    requires Sorted(xs) && i < |xs|
    ensures AtMost(xs, xs[i]) >= i + 1 && Below(xs, xs[i]) <= i
    decreases |xs|
  {
    if i > 0 {
      SortedCounts(xs[1..], i - 1);
    } else {
      NoneBelow(xs, xs[0]);
    }
  }

  lemma {:induction false} SortKeepsElements(xs: seq<real>, y: real)
    requires y in Sort(xs)
    ensures y in xs
    decreases |xs|
  {
    if |xs| > 0 && y != xs[0] {
      SortKeepsElements(xs[1..], y);
    }
  }

  lemma MulOrder(x: int, y: int, b: nat)
    ensures x <= y ==> x * b <= y * b
    ensures x < y && b > 0 ==> x * b < y * b
  {
    if x <= y {
      assert (y - x) * b >= 0;
      assert x < y && b > 0 ==> (y - x) * b > 0;
    }
  }

  lemma RankBounds(a: nat, b: nat, n: nat, p: nat, r: nat)
    requires 0 < a <= b && n > 0 && p == a * n && r == (p + b - 1) / b
    ensures 1 <= r <= n && r * b >= p && (r - 1) * b < p
  {
    MulOrder(a, b, n);
    MulOrder(1, a, n);
    assert p + b - 1 == r * b + (p + b - 1) % b;
    assert (r - 1) * b == r * b - b;
    MulOrder(n, r - 1, b);
    MulOrder(r, 0, b);
  }

  /** The share a / b of n, rounded up. */
  function Rank(a: nat, b: nat, n: nat): (r: nat)
    requires 0 < a <= b && n > 0
    ensures 1 <= r <= n && r * b >= a * n && (r - 1) * b < a * n
  {
    RankBounds(a, b, n, a * n, (a * n + b - 1) / b);
    (a * n + b - 1) / b
  }

  /** Nothing smaller than the rank reaches the share. */
  lemma RankIsLeast(a: nat, b: nat, n: nat, s: nat)
    requires 0 < a <= b && n > 0 && s * b >= a * n
    ensures Rank(a, b, n) <= s
  {
    MulOrder(s, Rank(a, b, n) - 1, b);
  }

  /** Nearest rank: the value at that position, counted from one, in sorted order. */
  function NearestRank(xs: seq<real>, a: nat, b: nat): real
    requires 0 < a <= b && |xs| > 0
  {
    Sort(xs)[Rank(a, b, |xs|) - 1]
  }

  lemma SharesOrdered(r: nat, atMost: nat, below: nat, b: nat, share: nat)
    requires 0 < r <= atMost && below <= r - 1 && r * b >= share && (r - 1) * b < share
    ensures atMost * b >= share && below * b < share
  {
    MulOrder(r, atMost, b);
    MulOrder(below, r - 1, b);
  }

  /** What the percentile means: it is one of the values, at least a / b of the values are no larger, and fewer
      than a / b of them are smaller. */
  lemma NearestRankMeans(xs: seq<real>, a: nat, b: nat)
    requires 0 < a <= b && |xs| > 0
    ensures var v := NearestRank(xs, a, b);
            v in xs && AtMost(xs, v) * b >= a * |xs| && Below(xs, v) * b < a * |xs|
  {
    hide AtMost, Below, Sort, Rank;
    var r, ys := Rank(a, b, |xs|), Sort(xs);
    var v := ys[r - 1];
    SortedCounts(ys, r - 1);
    SortCounts(xs, v);
    SortKeepsElements(xs, v);
    SharesOrdered(r, AtMost(xs, v), Below(xs, v), b, a * |xs|);
  }

  /** The order of the last two factors does not matter. */
  lemma LastTwo(x: nat, y: nat, z: nat, xy: nat, xz: nat)
    requires xy == x * y && xz == x * z
    ensures xy * z == xz * y
  {
    assert x * y * z == x * z * y;
  }

  lemma ShareOrder(a: nat, b: nat, c: nat, d: nat, n: nat, s: nat, sb: nat, an: nat)
    requires 0 < b && 0 < d && a * d <= c * b && s * d >= c * n && sb == s * b && an == a * n
    ensures sb >= an
  {
    var sd, cn, ad, cb := s * d, c * n, a * d, c * b;
    MulOrder(cn, sd, b);
    MulOrder(ad, cb, n);
    LastTwo(s, d, b, sd, sb);
    LastTwo(c, n, b, cn, cb);
    LastTwo(a, d, n, ad, an);
    MulOrder(sb, an, d);
  }

  /** A larger share never has a smaller percentile. */
  lemma NearestRankMonotone(xs: seq<real>, a: nat, b: nat, c: nat, d: nat)
    requires 0 < a <= b && 0 < c <= d && |xs| > 0 && a * d <= c * b
    ensures NearestRank(xs, a, b) <= NearestRank(xs, c, d)
  {
    hide Rank, Sort;
    var s := Rank(c, d, |xs|);
    ShareOrder(a, b, c, d, |xs|, s, s * b, a * |xs|);
    RankIsLeast(a, b, |xs|, s);
  }
}
