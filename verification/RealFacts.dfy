/** Facts about products and quotients of reals that the solver does not find by itself. */
module RealFacts {
  function Abs(x: real): real {
    if x < 0.0 then -x else x
  }

  function Min(a: real, b: real): real {
    if a < b then a else b
  }

  function Max(a: real, b: real): real {
    if a < b then b else a
  }

  function Clamp(x: real, lo: real, hi: real): real {
    if x < lo then lo else if hi < x then hi else x
  }

  lemma MulMono(a: real, b: real, c: real)
    requires a <= b && 0.0 <= c
    ensures a * c <= b * c && c * a <= c * b
  {
    assert 0.0 <= (b - a) * c;
  }

  lemma MulStrict(a: real, b: real, c: real)
    requires a < b && 0.0 < c
    ensures a * c < b * c && c * a < c * b
  {
    assert 0.0 < (b - a) * c;
  }

  lemma QuotientUnique(q: real, n: real, d: real)
    requires n != 0.0 && q * n == d
    ensures d / n == q
  {
    assert (d / n) * n == d;
    assert (d / n - q) * n == 0.0;
  }

  lemma QuotientTimes(d: real, n: real)
    requires n != 0.0
    ensures (d / n) * n == d && n * (d / n) == d
  {
  }

  lemma SignOfFactor(p: real, n: real)
    requires 0.0 < n
    ensures 0.0 <= p * n <==> 0.0 <= p
    ensures 0.0 < p * n <==> 0.0 < p
  {
  }

  /** Dividing by a positive number keeps the order. */
  lemma DivMono(a: real, b: real, n: real)
    requires a <= b && 0.0 < n
    ensures a / n <= b / n
    ensures a < b ==> a / n < b / n
  {
    var p := b / n - a / n;
    assert p * n == b - a;
    SignOfFactor(p, n);
  }

  lemma AbsMul(a: real, b: real)
    ensures Abs(a * b) == Abs(a) * Abs(b)
  {
  }

  lemma MulAbsBound(a: real, b: real, x: real, y: real)
    requires Abs(a) <= x && Abs(b) <= y
    ensures Abs(a * b) <= x * y
  {
    AbsMul(a, b);
    MulMono(Abs(a), x, Abs(b));
    MulMono(Abs(b), y, x);
  }

  lemma Complement(p: real, b: real)
    ensures (1.0 - p) * b + p * b == b
  {
  }

  lemma SumWithin(u: real, v: real, c: real, d: real)
    requires Abs(u) <= c && Abs(v) <= d
    ensures Abs(u + v) <= c + d
  {
  }

  /** A weighted average of two values stays within their common bound. */
  lemma AverageWithin(p: real, x: real, y: real, b: real)
    requires 0.0 <= p <= 1.0 && Abs(x) <= b && Abs(y) <= b
    ensures Abs((1.0 - p) * x + p * y) <= b
  {
    MulAbsBound(1.0 - p, x, 1.0 - p, b);
    MulAbsBound(p, y, p, b);
    Complement(p, b);
    SumWithin((1.0 - p) * x, p * y, (1.0 - p) * b, p * b);
  }

  /** From x to y as p goes from 0 to 1. */
  function Crossfade(p: real, x: real, y: real): real {
    (1.0 - p) * x + p * y
  }

  lemma Shares(q: real, p: real, b: real)
    requires q + p == 1.0
    ensures q * b + p * b == b
  {
    assert (q + p) * b == q * b + p * b;
  }

  lemma SumBetween(x: real, y: real, a: real, b: real, c: real, d: real)
    requires a <= x <= c && b <= y <= d
    ensures a + b <= x + y <= c + d
  {
  }

  lemma WeightsBetween(q: real, p: real, x: real, y: real, lo: real, hi: real)
    requires 0.0 <= q && 0.0 <= p && q + p == 1.0 && lo <= x <= hi && lo <= y <= hi
    ensures lo <= q * x + p * y <= hi
  {
    MulMono(lo, x, q);
    MulMono(x, hi, q);
    MulMono(lo, y, p);
    MulMono(y, hi, p);
    Shares(q, p, lo);
    Shares(q, p, hi);
    SumBetween(q * x, p * y, q * lo, p * lo, q * hi, p * hi);
  }

  /** A crossfade stays between its ends, and reaches them. */
  lemma CrossfadeBetween(p: real, x: real, y: real)
    requires 0.0 <= p <= 1.0
    ensures Min(x, y) <= Crossfade(p, x, y) <= Max(x, y)
    ensures Crossfade(0.0, x, y) == x && Crossfade(1.0, x, y) == y
  {
    WeightsBetween(1.0 - p, p, x, y, Min(x, y), Max(x, y));
  }

  /** What is added to a value scaled down leaves it within b when b absorbs the addition. */
  lemma ScaledSumWithin(x: real, k: real, y: real, m: real, f: real, b: real)
    requires Abs(x) <= m && Abs(k) <= f && Abs(y) <= b && m + f * b <= b
    ensures Abs(x + k * y) <= b
  {
    MulAbsBound(k, y, f, b);
    SumWithin(x, k * y, m, f * b);
  }

  lemma QuotientWithin(p: real, w: real, b: real)
    requires 0.0 < w && Abs(p) <= b * w
    ensures Abs(p / w) <= b
  {
    DivMono(p, b * w, w);
    DivMono(-(b * w), p, w);
    QuotientUnique(b, w, b * w);
    QuotientUnique(-b, w, -(b * w));
  }

  lemma Distribute(k: real, a: real, x: real, b: real, y: real)
    ensures k * (a * x + b * y) == a * (k * x) + b * (k * y)
  {
  }

  /** z = a x + b y survives adding a scaled second triple of the same kind. */
  lemma SumLinear(a: real, b: real, x: real, y: real, k: real, p: real, q: real)
    ensures (a * x + b * y) + k * (a * p + b * q) == a * (x + k * p) + b * (y + k * q)
  {
    Distribute(k, a, p, b, q);
  }

  lemma QuotientLinear(a: real, b: real, p: real, q: real, r: real, w: real)
    requires w != 0.0 && r == a * p + b * q
    ensures r / w == a * (p / w) + b * (q / w)
  {
    var u, v := p / w, q / w;
    QuotientTimes(p, w);
    QuotientTimes(q, w);
    Distribute(w, a, u, b, v);
    QuotientUnique(a * u + b * v, w, r);
  }

  // ---------------------------------------------------------------- weighted sums

  /** Sum of the first n elements. */
  function Sum(ws: seq<real>, n: nat): real
    requires n <= |ws|
  {
    if n == 0 then 0.0 else Sum(ws, n - 1) + ws[n - 1]
  }

  /** Sum of the products of the first n elements. */
  function Dot(ws: seq<real>, ds: seq<real>, n: nat): real
    requires n <= |ws| && n <= |ds|
  {
    if n == 0 then 0.0 else Dot(ws, ds, n - 1) + ws[n - 1] * ds[n - 1]
  }

  lemma FourTerms(ws: seq<real>, ds: seq<real>)
    requires |ws| == |ds| == 4
    ensures Sum(ws, 4) == ws[0] + ws[1] + ws[2] + ws[3]
    ensures Dot(ws, ds, 4) == ws[0] * ds[0] + ws[1] * ds[1] + ws[2] * ds[2] + ws[3] * ds[3]
  {
    assert Sum(ws, 1) == ws[0] && Sum(ws, 2) == Sum(ws, 1) + ws[1] && Sum(ws, 3) == Sum(ws, 2) + ws[2];
    assert Dot(ws, ds, 1) == ws[0] * ds[0];
    assert Dot(ws, ds, 2) == Dot(ws, ds, 1) + ws[1] * ds[1];
    assert Dot(ws, ds, 3) == Dot(ws, ds, 2) + ws[2] * ds[2];
  }

  lemma {:induction false} DotMono(ws: seq<real>, ds: seq<real>, bs: seq<real>, n: nat)
    requires n <= |ws| == |ds| == |bs| && forall i :: 0 <= i < n ==> 0.0 <= ws[i] && Abs(ds[i]) <= bs[i]
    ensures Abs(Dot(ws, ds, n)) <= Dot(ws, bs, n)
  {
    if n > 0 {
      DotMono(ws, ds, bs, n - 1);
      MulAbsBound(ws[n - 1], ds[n - 1], ws[n - 1], bs[n - 1]);
    }
  }

  lemma {:induction false} DotConstant(ws: seq<real>, bs: seq<real>, b: real, n: nat)
    requires n <= |ws| == |bs| && forall i :: 0 <= i < n ==> bs[i] == b
    ensures Dot(ws, bs, n) == b * Sum(ws, n)
  {
    if n > 0 {
      DotConstant(ws, bs, b, n - 1);
      assert b * (Sum(ws, n - 1) + ws[n - 1]) == b * Sum(ws, n - 1) + ws[n - 1] * b;
    }
  }

  /** A weighted sum of values within b is within b times the sum of the weights. */
  lemma DotWithin(ws: seq<real>, ds: seq<real>, b: real, n: nat)
    requires n <= |ws| == |ds| && forall i :: 0 <= i < n ==> 0.0 <= ws[i] && Abs(ds[i]) <= b
    ensures Abs(Dot(ws, ds, n)) <= b * Sum(ws, n)
  {
    var bs := seq(|ws|, i => b);
    DotMono(ws, ds, bs, n);
    DotConstant(ws, bs, b, n);
  }

  lemma {:induction false} DotLinear(ws: seq<real>, xs: seq<real>, ys: seq<real>, zs: seq<real>, a: real, b: real,
                                     n: nat)
    requires n <= |ws| == |xs| == |ys| == |zs| && forall i :: 0 <= i < n ==> zs[i] == a * xs[i] + b * ys[i]
    ensures Dot(ws, zs, n) == a * Dot(ws, xs, n) + b * Dot(ws, ys, n)
  {
    if n > 0 {
      DotLinear(ws, xs, ys, zs, a, b, n - 1);
      SumLinear(a, b, Dot(ws, xs, n - 1), Dot(ws, ys, n - 1), ws[n - 1], xs[n - 1], ys[n - 1]);
    }
  }

  lemma AverageLinear(ws: seq<real>, xs: seq<real>, ys: seq<real>, zs: seq<real>, a: real, b: real, n: nat)
    requires n <= |ws| == |xs| == |ys| == |zs| && forall i :: 0 <= i < n ==> zs[i] == a * xs[i] + b * ys[i]
    requires Sum(ws, n) != 0.0
    ensures Dot(ws, zs, n) / Sum(ws, n) == a * (Dot(ws, xs, n) / Sum(ws, n)) + b * (Dot(ws, ys, n) / Sum(ws, n))
  {
    hide Dot, Sum;
    var p, q, r, w := Dot(ws, xs, n), Dot(ws, ys, n), Dot(ws, zs, n), Sum(ws, n);
    assert r == a * p + b * q by {
      DotLinear(ws, xs, ys, zs, a, b, n);
    }
    QuotientLinear(a, b, p, q, r, w);
  }
}
