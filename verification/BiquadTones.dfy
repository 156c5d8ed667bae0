/** Tones as complex numbers, and what a filter section makes of them (src/audio/Biquad.h:29-71). */
module BiquadTones {
  import opened RealFacts
  import opened Biquads

  // ---------------------------------------------------------------- tones

  /** One sample of a tone and the sample a quarter turn away from it: a complex number. */
  datatype Tone = Tone(re: real, im: real)

  function Plus(x: Tone, y: Tone): Tone {
    Tone(x.re + y.re, x.im + y.im)
  }

  function Scale(q: real, x: Tone): Tone {
    Tone(q * x.re, q * x.im)
  }

  function Times(x: Tone, y: Tone): Tone {
    Tone(x.re * y.re - x.im * y.im, x.re * y.im + x.im * y.re)
  }

  function Power(x: Tone): real {
    x.re * x.re + x.im * x.im
  }

  function Mirror(x: Tone): Tone {
    Tone(x.re, -x.im)
  }

  /** A frequency, by cosine and sine of half the angle that it turns through per sample. */
  datatype Turn = Turn(a: real, b: real)
  {
    predicate Valid() {
      a * a + b * b == 1.0
    }

    /** Cosine and sine of the whole angle. */
    function Angle(): Tone {
      Tone(a * a - b * b, 2.0 * (a * b))
    }

    /** The tone one sample later. */
    function Step(x: Tone): Tone {
      Times(Angle(), x)
    }

    function After(x: Tone, n: nat): Tone {
      if n == 0 then x else Step(After(x, n - 1))
    }

    function Samples(x: Tone, n: nat): (xs: seq<real>)
      ensures |xs| == n
    {
      seq(n, i requires 0 <= i < n => After(x, i).re)
    }
  }

  // ---------------------------------------------------------------- complex arithmetic

  lemma TimesCommutes(x: Tone, y: Tone)
    ensures Times(x, y) == Times(y, x)
  {
  }

  lemma ThreeFactors(p: real, q: real, r: real)
    ensures p * (q * r) == (p * q) * r
  {
  }

  lemma ProductAssociates(a: real, b: real, c: real, d: real, e: real, f: real)
    ensures a * (c * e - d * f) - b * (c * f + d * e) == (a * c - b * d) * e - (a * d + b * c) * f
    ensures a * (c * f + d * e) + b * (c * e - d * f) == (a * c - b * d) * f + (a * d + b * c) * e
  {
  }

  lemma TimesAssociates(x: Tone, y: Tone, z: Tone)
    ensures Times(x, Times(y, z)) == Times(Times(x, y), z)
  {
    ProductAssociates(x.re, x.im, y.re, y.im, z.re, z.im);
    assert Times(x, Times(y, z)).re == Times(Times(x, y), z).re;
    assert Times(x, Times(y, z)).im == Times(Times(x, y), z).im;
  }

  lemma TimesScales(x: Tone, q: real, y: Tone)
    ensures Times(x, Scale(q, y)) == Scale(q, Times(x, y)) == Times(Scale(q, x), y)
  {
    TimesAssociates(x, Tone(q, 0.0), y);
    TimesAssociates(Tone(q, 0.0), x, y);
    TimesCommutes(x, Tone(q, 0.0));
    assert Scale(q, y) == Times(Tone(q, 0.0), y);
    assert Scale(q, Times(x, y)) == Times(Tone(q, 0.0), Times(x, y));
    assert Scale(q, x) == Times(Tone(q, 0.0), x);
  }

  lemma TimesAdds(x: Tone, y: Tone, z: Tone)
    ensures Times(x, Plus(y, z)) == Plus(Times(x, y), Times(x, z))
    ensures Times(Plus(y, z), x) == Plus(Times(y, x), Times(z, x))
  {
  }

  lemma MirrorTimes(h: Tone, x: Tone)
    ensures Times(h, Times(Mirror(h), x)) == Scale(Power(h), x)
  {
    TimesAssociates(h, Mirror(h), x);
    assert Times(h, Mirror(h)) == Tone(Power(h), 0.0);
  }

  /** Division by a number other than zero. */
  lemma Divides(h: Tone, n: real, x: Tone) returns (y: Tone)
    requires Power(h) > 0.0
    ensures Times(h, y) == Scale(n, x)
  {
    var q, w := n / Power(h), Times(Mirror(h), x);
    y := Scale(q, w);
    QuotientTimes(n, Power(h));
    hide Power, Mirror, Times;
    TimesScales(h, q, w);
    MirrorTimes(h, x);
    ThreeFactors(q, Power(h), x.re);
    ThreeFactors(q, Power(h), x.im);
  }

  // ---------------------------------------------------------------- one section

  /** p times the tone two samples on, and q times the one after this, and r times this one. */
  function Mixed(p: real, q: real, r: real, t: Turn, x: Tone): Tone {
    Plus(Plus(Scale(p, t.Step(t.Step(x))), Scale(q, t.Step(x))), Scale(r, x))
  }

  /** The section meets its difference equation with the tone x going in and the tone y coming out. */
  predicate Follows(c: Coefficients, t: Turn, x: Tone, y: Tone) {
    Mixed(1.0, c.a1, c.a2, t, y) == Mixed(c.b0, c.b1, c.b2, t, x)
  }

  lemma StepsMixed(p: real, q: real, r: real, t: Turn, x: Tone)
    ensures t.Step(Mixed(p, q, r, t, x)) == Mixed(p, q, r, t, t.Step(x))
  {
    var h, u, v := t.Angle(), Scale(p, t.Step(t.Step(x))), Scale(q, t.Step(x));
    hide Times, Plus, Scale, Turn.Angle;
    TimesAdds(h, Plus(u, v), Scale(r, x));
    TimesAdds(h, u, v);
    TimesScales(h, p, t.Step(t.Step(x)));
    TimesScales(h, q, t.Step(x));
    TimesScales(h, r, x);
  }

  /** The equation goes on holding. */
  lemma FollowsOn(c: Coefficients, t: Turn, x: Tone, y: Tone)
    requires Follows(c, t, x, y)
    ensures Follows(c, t, t.Step(x), t.Step(y))
  {
    hide Mixed;
    StepsMixed(1.0, c.a1, c.a2, t, y);
    StepsMixed(c.b0, c.b1, c.b2, t, x);
  }

  /** The delays of a section in the middle of such a tone. */
  function Ringing(c: Coefficients, t: Turn, x: Tone, y: Tone): Section {
    Section(c, y.re - c.b0 * x.re,
            t.Step(y).re - c.b0 * t.Step(x).re - c.b1 * x.re + c.a1 * y.re)
  }

  lemma NextIs(s: Section, x: real, y: real)
    requires y == s.c.b0 * x + s.z1
    ensures s.Out(x) == y && s.Next(x) == Section(s.c, s.c.b1 * x - s.c.a1 * y + s.z2, s.c.b2 * x - s.c.a2 * y)
  {
  }

  lemma FollowsIs(c: Coefficients, t: Turn, x: Tone, y: Tone)
    requires Follows(c, t, x, y)
    ensures var x1, y1 := t.Step(x), t.Step(y);
            t.Step(y1).re + c.a1 * y1.re + c.a2 * y.re == c.b0 * t.Step(x1).re + c.b1 * x1.re + c.b2 * x.re
  {
    hide Turn.Step;
    assert Mixed(1.0, c.a1, c.a2, t, y).re == Mixed(c.b0, c.b1, c.b2, t, x).re;
  }

  lemma RingsOn(c: Coefficients, t: Turn, x: Tone, y: Tone)
    requires Follows(c, t, x, y)
    ensures Filter(Ringing(c, t, x, y), x.re) == (Ringing(c, t, t.Step(x), t.Step(y)), y.re)
  {
    hide Turn.Step, Follows, Section.Out, Section.Next;
    FollowsIs(c, t, x, y);
    var s, n := Ringing(c, t, x, y), Ringing(c, t, t.Step(x), t.Step(y));
    NextIs(s, x.re, y.re);
    assert s.Next(x.re).z1 == n.z1;
    assert s.Next(x.re).z2 == n.z2;
    assert s.Next(x.re).c == n.c;
  }

  /** What the section multiplies a tone by, before and behind, as seen from the middle of the three samples. */
  function Symbol(p: real, q: real, r: real, t: Turn): Tone {
    Plus(Plus(Scale(p, t.Angle()), Tone(q, 0.0)), Scale(r, Mirror(t.Angle())))
  }

  lemma AngleIsUnit(t: Turn)
    requires t.Valid()
    ensures Power(t.Angle()) == 1.0
  {
    var aa, bb, ab := t.a * t.a, t.b * t.b, t.a * t.b;
    ThreeFactors(ab, t.a, t.b);
    ThreeFactors(t.a, t.b, t.a);
    ThreeFactors(aa, t.b, t.b);
    assert ab * ab == aa * bb;
    assert (aa + bb) * (aa + bb) == aa * aa + 2.0 * (aa * bb) + bb * bb;
  }

  lemma MixedIs(p: real, q: real, r: real, t: Turn, x: Tone)
    requires t.Valid()
    ensures Mixed(p, q, r, t, x) == t.Step(Times(Symbol(p, q, r, t), x))
  {
    var h := t.Angle();
    var u, v, w := Scale(p, h), Tone(q, 0.0), Scale(r, Mirror(h));
    assert Times(v, x) == Scale(q, x);
    AngleIsUnit(t);
    assert Scale(Power(h), x) == x;
    MirrorTimes(h, x);
    hide Times, Plus, Scale, Turn.Angle, Mirror, Power;
    var hx, mx := Times(h, x), Times(Mirror(h), x);
    TimesAdds(x, Plus(u, v), w);
    TimesAdds(x, u, v);
    TimesScales(h, p, x);
    TimesScales(Mirror(h), r, x);
    TimesAdds(h, Plus(Scale(p, hx), Scale(q, x)), Scale(r, mx));
    TimesAdds(h, Scale(p, hx), Scale(q, x));
    TimesScales(h, p, hx);
    TimesScales(h, q, x);
    TimesScales(h, r, mx);
  }

  // ---------------------------------------------------------------- one design

  /** Denominator that both designs for k have at this frequency. */
  function Poles(k: real, t: Turn): Tone {
    Tone(k * k * (t.a * t.a) - t.b * t.b, SQRT_TWO * (k * (t.a * t.b)))
  }

  /** The numerators of the two designs at this frequency. */
  function Low(k: real, t: Turn): real {
    k * k * (t.a * t.a)
  }

  function High(t: Turn): real {
    -(t.b * t.b)
  }

  lemma SymbolIs(p: real, q: real, r: real, t: Turn, cosine: real, sine: real)
    requires Tone(cosine, sine) == t.Angle()
    ensures Symbol(p, q, r, t) == Tone(p * cosine + q + r * cosine, p * sine - r * sine)
  {
  }

  lemma SymbolSums(norm: real, kn: real, kkn: real, a2: real, aa: real, bb: real, ab: real)
    requires norm + SQRT_TWO * kn + kkn == 1.0 && aa + bb == 1.0 && a2 == norm - SQRT_TWO * kn + kkn
    ensures (aa - bb) + 2.0 * (kkn - norm) + a2 * (aa - bb) == 4.0 * (kkn * aa) - 4.0 * (norm * bb)
    ensures 2.0 * ab - a2 * (2.0 * ab) == 4.0 * (SQRT_TWO * (kn * ab))
  {
    assert a2 == 2.0 * (norm + kkn) - 1.0 && a2 == 1.0 - 2.0 * (SQRT_TWO * kn);
    assert aa - bb + a2 * (aa - bb) == 2.0 * (norm + kkn) * (aa - bb);
    assert 2.0 * (kkn - norm) == 2.0 * (kkn - norm) * (aa + bb);
  }

  lemma ScaledPoles(norm: real, k: real, kn: real, kkn: real, aa: real, bb: real, ab: real)
    requires kn == k * norm && kkn == k * k * norm
    ensures 4.0 * norm * (k * k * aa - bb) == 4.0 * (kkn * aa) - 4.0 * (norm * bb)
    ensures 4.0 * norm * (SQRT_TWO * (k * ab)) == 4.0 * (SQRT_TWO * (kn * ab))
  {
    ThreeFactors(norm, k * k, aa);
    ThreeFactors(norm, k, ab);
    var u, v := k * k * aa, k * ab;
    assert norm * (u - bb) == norm * u - norm * bb;
    assert 4.0 * norm * (SQRT_TWO * v) == 4.0 * (SQRT_TWO * (norm * v));
  }

  lemma PolesAre(c: Coefficients, k: real, t: Turn, norm: real, kn: real, kkn: real)
    requires t.Valid() && norm + SQRT_TWO * kn + kkn == 1.0 && kn == k * norm && kkn == k * k * norm
    requires c.a1 == 2.0 * (kkn - norm) && c.a2 == norm - SQRT_TWO * kn + kkn
    ensures Symbol(1.0, c.a1, c.a2, t) == Scale(4.0 * norm, Poles(k, t))
  {
    hide Symbol;
    var aa, bb, ab := t.a * t.a, t.b * t.b, t.a * t.b;
    SymbolSums(norm, kn, kkn, c.a2, aa, bb, ab);
    ScaledPoles(norm, k, kn, kkn, aa, bb, ab);
    SymbolIs(1.0, c.a1, c.a2, t, aa - bb, 2.0 * ab);
  }

  /** A section passes a tone on as n over P, when its two symbols are multiples of P and n. */
  lemma DesignFollows(c: Coefficients, t: Turn, m: real, p: Tone, n: real, x: Tone, y: Tone)
    requires t.Valid() && Symbol(1.0, c.a1, c.a2, t) == Scale(m, p) && Symbol(c.b0, c.b1, c.b2, t) == Tone(m * n, 0.0)
    requires Times(p, y) == Scale(n, x)
    ensures Follows(c, t, x, y)
  {
    MixedIs(1.0, c.a1, c.a2, t, y);
    MixedIs(c.b0, c.b1, c.b2, t, x);
    assert Times(Tone(m * n, 0.0), x) == Scale(m * n, x);
    ThreeFactors(m, n, x.re);
    ThreeFactors(m, n, x.im);
    assert Scale(m * n, x) == Scale(m, Scale(n, x));
    hide Mixed, Symbol, Times, Scale;
    TimesScales(p, m, y);
  }

  lemma LowSum(k: real, norm: real, kkn: real, aa: real, bb: real)
    requires aa + bb == 1.0 && kkn == k * k * norm
    ensures kkn * (aa - bb) + 2.0 * kkn + kkn * (aa - bb) == 4.0 * norm * (k * k * aa)
  {
    ThreeFactors(norm, k * k, aa);
    assert kkn == kkn * (aa + bb) == kkn * aa + kkn * bb;
  }

  lemma HighSum(norm: real, aa: real, bb: real)
    requires aa + bb == 1.0
    ensures norm * (aa - bb) + -2.0 * norm + norm * (aa - bb) == 4.0 * norm * -bb
  {
    assert norm == norm * (aa + bb) == norm * aa + norm * bb;
  }

  /** A lowpass multiplies a tone by k k a a over P. */
  lemma LowpassFollows(k: real, t: Turn, x: Tone, y: Tone)
    requires k > 0.0 && t.Valid() && Times(Poles(k, t), y) == Scale(Low(k, t), x)
    ensures Follows(Lowpass(k), t, x, y)
  {
    hide Follows, Lowpass, Highpass, Symbol, Times, Poles;
    var norm, kn, kkn := Products(k);
    var c, aa, bb, ab := Lowpass(k), t.a * t.a, t.b * t.b, t.a * t.b;
    PolesAre(c, k, t, norm, kn, kkn);
    SymbolIs(c.b0, c.b1, c.b2, t, aa - bb, 2.0 * ab);
    LowSum(k, norm, kkn, aa, bb);
    DesignFollows(c, t, 4.0 * norm, Poles(k, t), Low(k, t), x, y);
  }

  /** A highpass multiplies a tone by -b b over P. */
  lemma HighpassFollows(k: real, t: Turn, x: Tone, y: Tone)
    requires k > 0.0 && t.Valid() && Times(Poles(k, t), y) == Scale(High(t), x)
    ensures Follows(Highpass(k), t, x, y)
  {
    hide Follows, Lowpass, Highpass, Symbol, Times, Poles;
    var norm, kn, kkn := Products(k);
    var c, aa, bb, ab := Highpass(k), t.a * t.a, t.b * t.b, t.a * t.b;
    PolesAre(c, k, t, norm, kn, kkn);
    SymbolIs(c.b0, c.b1, c.b2, t, aa - bb, 2.0 * ab);
    HighSum(norm, aa, bb);
    DesignFollows(c, t, 4.0 * norm, Poles(k, t), High(t), x, y);
  }

  lemma NotZeroSquare(x: real, s: real)
    requires x != 0.0 && s == x * x
    ensures s > 0.0
  {
    if x > 0.0 {
      ProductPositive(x, x, s);
    } else {
      ProductPositive(-x, -x, s);
    }
  }

  lemma SquaresPositive(p: real, q: real, pp: real, qq: real)
    requires (p != 0.0 || q != 0.0) && pp == p * p && qq == q * q
    ensures pp + qq > 0.0
  {
    SquareOf(p, pp);
    SquareOf(q, qq);
    if p != 0.0 {
      NotZeroSquare(p, pp);
    } else {
      NotZeroSquare(q, qq);
    }
  }

  lemma PoleParts(k: real, a: real, b: real, aa: real, bb: real, kk: real, ab: real)
    requires k > 0.0 && aa == a * a && bb == b * b && ab == a * b && kk == k * k && aa + bb == 1.0
    ensures if ab == 0.0 then kk * aa - bb != 0.0 else k * ab != 0.0
  {
    ProductPositive(k, k, kk);
    if ab > 0.0 {
      ProductPositive(k, ab, k * ab);
    } else if ab < 0.0 {
      ProductPositive(k, -ab, -(k * ab));
    } else if a == 0.0 {
      assert aa == 0.0;
    } else {
      assert b == 0.0;
      assert bb == 0.0 && kk * aa == kk;
    }
  }

  /** P is never zero: no frequency makes a design ring for ever. */
  lemma PolesNotZero(k: real, t: Turn)
    requires k > 0.0 && t.Valid()
    ensures Power(Poles(k, t)) > 0.0
  {
    var p := Poles(k, t);
    PoleParts(k, t.a, t.b, t.a * t.a, t.b * t.b, k * k, t.a * t.b);
    assert p.re != 0.0 || p.im != 0.0;
    SquaresPositive(p.re, p.im, p.re * p.re, p.im * p.im);
  }
}
