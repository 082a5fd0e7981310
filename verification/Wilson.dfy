/** The Wilson score interval of a proportion, in exact arithmetic. */
module Wilson {
  import opened Reals
  import opened Wrappers

  datatype Interval = Interval(p: real, lo: real, hi: real)

  function Denom(n: real, z: real): real
    requires n > 0.0
  {
    1.0 + z * z / n
  }

  function Center(p: real, n: real, z: real): real
    requires n > 0.0 && Denom(n, z) != 0.0
  {
    (p + z * z / (2.0 * n)) / Denom(n, z)
  }

  function Radicand(p: real, n: real, z: real): real
    requires n > 0.0
  {
    p * (1.0 - p) / n + z * z / FourSquares(n)
  }

  function FourSquares(n: real): (r: real)
    requires n > 0.0
    ensures r > 0.0
  {
    var m := 4.0 * n;
    PositiveProduct(m, n);
    m * n
  }

  /** The non-negative square root of `x`. */
  ghost predicate IsRoot(root: real, x: real) {
    root >= 0.0 && root * root == x
  }

  lemma DenomPositive(n: real, z: real)
    requires n > 0.0
    ensures z * z / n >= 0.0 && Denom(n, z) >= 1.0
  {
    assert z * z >= 0.0;
    NonNegativeQuotient(z * z, n);
  }

  lemma NonNegativeQuotient(a: real, n: real)
    requires a >= 0.0 && n > 0.0
    ensures a / n >= 0.0
  {
  }

  function Half(n: real, z: real, root: real): real
    requires n > 0.0
  {
    DenomPositive(n, z);
    z / Denom(n, z) * root
  }

  /** `root` is the square root that the computation takes; nothing stands for the answer without
      samples. */
  function WilsonCi(successes: real, total: real, z: real, root: real): Option<Interval> {
    if total <= 0.0 then None else
    var p := successes / total;
    DenomPositive(total, z);
    var center, half := Center(p, total, z), Half(total, z, root);
    Some(Interval(p, Max(0.0, center - half), Min(1.0, center + half)))
  }

  /** Whatever the counts: there is an answer exactly if there are samples, it names the proportion,
      and its ends do not leave the unit interval. */
  lemma AnswersIff(successes: real, total: real, z: real, root: real)
    ensures var r := WilsonCi(successes, total, z, root);
      && (r.None? <==> total <= 0.0)
      && (r.Some? ==> total != 0.0 && r.value.p == successes / total && 0.0 <= r.value.lo && r.value.hi <= 1.0)
  {
    hide Center, Half;
  }

  // ----- the interval as the solutions of a quadratic inequality

  /** How far `x` is from being compatible with the proportion `p`; `a` is z * z / n. */
  function Excess(p: real, a: real, x: real): real {
    (p - x) * (p - x) - a * (x * (1.0 - x))
  }

  /** The parts of the computation without divisions. */
  lemma Scaled(p: real, n: real, z: real, root: real)
    requires n > 0.0 && IsRoot(root, Radicand(p, n, z)) && z > 0.0
    ensures var a, d := z * z / n, Denom(n, z);
      && d == 1.0 + a && d > 0.0 && a >= 0.0
      && Center(p, n, z) * d == p + a / 2.0
      && Half(n, z, root) * d == z * root
      && z * root * (z * root) == a * (p * (1.0 - p)) + a * a / 4.0
  {
    DenomPositive(n, z);
    var a, d := z * z / n, Denom(n, z);
    Divides(p + z * z / (2.0 * n), d);
    HalfQuotient(z * z, n);
    Divides(z, d);
    assert Half(n, z, root) * d == z / d * root * d;
    Commute(z / d, root, d);
    Square(z, root);
    RadicandScaled(p, n, z);
  }

  lemma HalfQuotient(x: real, n: real)
    requires n > 0.0
    ensures x / (2.0 * n) == x / n / 2.0
  {
    Divides(x, n);
    Divides(x, 2.0 * n);
    var u, v := x / (2.0 * n), x / n;
    assert (u * 2.0 - v) * n == 0.0;
    Cancel(u * 2.0 - v, n);
  }

  lemma Cancel(x: real, n: real)
    requires n > 0.0 && x * n == 0.0
    ensures x == 0.0
  {
  }

  lemma Commute(q: real, r: real, d: real)
    ensures q * r * d == q * d * r
  {
  }

  lemma Square(z: real, r: real)
    ensures z * r * (z * r) == z * z * (r * r)
  {
    assert z * r * (z * r) == z * (r * (z * r));
    assert r * (z * r) == z * (r * r);
  }

  lemma RadicandScaled(p: real, n: real, z: real)
    requires n > 0.0
    ensures var a := z * z / n; z * z * Radicand(p, n, z) == a * (p * (1.0 - p)) + a * a / 4.0
  {
    var m := FourSquares(n);
    var a, zz, v := z * z / n, z * z, p * (1.0 - p);
    Divides(zz, n);
    Divides(v, n);
    Divides(zz, m);
    var q, w := v / n, zz / m;
    assert zz * q == a * v by {
      assert zz * q == a * n * q;
      assert a * n * q == a * (q * n);
    }
    assert zz * w == a * a / 4.0 by {
      assert a * n == w * m;
      assert (a - w * 4.0 * n) * n == 0.0;
      Cancel(a - w * 4.0 * n, n);
      assert zz * w == a * n * w;
      assert a * n * w == a * (n * w);
      assert n * w == a / 4.0;
    }
    assert zz * (q + w) == zz * q + zz * w;
  }

  /** The excess is a parabola whose zeros are the ends of the interval. */
  lemma Parabola(p: real, a: real, x: real, c: real, h: real)
    requires var d := 1.0 + a; c * d == p + a / 2.0 && h * d * (h * d) == a * (p * (1.0 - p)) + a * a / 4.0
    ensures var d := 1.0 + a; Excess(p, a, x) * d == (x - c) * d * ((x - c) * d) - h * d * (h * d)
  {
    var d := 1.0 + a;
    assert (x - c) * d == x * d - (p + a / 2.0);
    var u := x * d - (p + a / 2.0);
    Expand(p, a, x);
    assert u * u == (x - c) * d * ((x - c) * d);
  }

  lemma Expand(p: real, a: real, x: real)
    ensures var d := 1.0 + a; var u := x * d - (p + a / 2.0);
      Excess(p, a, x) * d == u * u - (a * (p * (1.0 - p)) + a * a / 4.0)
  {
  }

  lemma LargerSquare(u: real, e: real)
    requires u > e >= 0.0
    ensures u * u > e * e
  {
    PositiveProduct(u - e, u + e);
    assert u * u - e * e == (u - e) * (u + e);
  }

  lemma SquareOfNegation(u: real, v: real)
    requires v == -u
    ensures v * v == u * u
  {
  }

  lemma AbsSquares(u: real, e: real)
    requires e >= 0.0
    ensures u * u <= e * e <==> -e <= u <= e
  {
    if u > e {
      LargerSquare(u, e);
    } else if u < -e {
      LargerSquare(-u, e);
      SquareOfNegation(u, -u);
    } else {
      NonNegativeProduct(e - u, e + u);
      assert e * e - u * u == (e - u) * (e + u);
    }
  }

  lemma SameSign(x: real, d: real)
    requires d > 0.0
    ensures x * d <= 0.0 <==> x <= 0.0
    ensures x * d >= 0.0 <==> x >= 0.0
  {
  }

  /** `x` is between the unclamped ends exactly when its excess is not positive. */
  lemma Between(p: real, a: real, x: real, c: real, h: real)
    requires a >= 0.0 && h >= 0.0
    requires var d := 1.0 + a; c * d == p + a / 2.0 && h * d * (h * d) == a * (p * (1.0 - p)) + a * a / 4.0
    ensures c - h <= x <= c + h <==> Excess(p, a, x) <= 0.0
    ensures (Excess(p, a, x) >= 0.0 && x <= c ==> x <= c - h) && (Excess(p, a, x) >= 0.0 && x >= c ==> x >= c + h)
  {
    var d := 1.0 + a;
    Parabola(p, a, x, c, h);
    SameSign(Excess(p, a, x), d);
    var u, e := (x - c) * d, h * d;
    SameSign(h, d);
    AbsSquares(u, e);
    SameSign(x - c - h, d);
    SameSign(x - c + h, d);
    SameSign(x - c, d);
    assert (x - c - h) * d == u - e && (x - c + h) * d == u + e;
    Outside(u, e);
  }

  lemma Outside(u: real, e: real)
    requires e >= 0.0
    ensures u * u - e * e >= 0.0 ==> u <= -e || u >= e
  {
    assert u * u - e * e == -((e - u) * (e + u));
    if -e < u < e {
      PositiveProduct(e - u, e + u);
    }
  }

  /** The ends and the centre of the unit interval. */
  lemma UnitEnds(p: real, a: real, c: real)
    requires 0.0 <= p <= 1.0 && a >= 0.0 && c * (1.0 + a) == p + a / 2.0
    ensures 0.0 <= c <= 1.0
    ensures Excess(p, a, 0.0) >= 0.0 && Excess(p, a, 1.0) >= 0.0 && Excess(p, a, p) <= 0.0
  {
    var d := 1.0 + a;
    SameSign(c, d);
    assert (1.0 - c) * d == d - (p + a / 2.0);
    SameSign(1.0 - c, d);
    assert p * p >= 0.0 && (p - 1.0) * (p - 1.0) >= 0.0;
    NonNegativeProduct(p, 1.0 - p);
    NonNegativeProduct(a, p * (1.0 - p));
  }

  lemma Proportion(s: real, n: real)
    requires 0.0 <= s <= n && n > 0.0
    ensures 0.0 <= s / n <= 1.0
  {
    Divides(s, n);
    SameSign(s / n, n);
    assert (1.0 - s / n) * n == n - s;
    SameSign(1.0 - s / n, n);
  }

  /** For any counts and any z: 0 <= lo <= p <= hi <= 1, the clamps change nothing, and `x` is in
      the interval exactly when the squared distance of `x` from `p` is at most z * z times the
      variance x * (1 - x) / n. */
  lemma IntervalIff(s: real, n: real, z: real, root: real, x: real)
    requires 0.0 <= s <= n && n > 0.0 && z > 0.0 && IsRoot(root, Radicand(s / n, n, z))
    ensures WilsonCi(s, n, z, root).Some?
    ensures var i := WilsonCi(s, n, z, root).value;
      && 0.0 <= i.lo <= i.p <= i.hi <= 1.0
      && i.p == s / n
      && Denom(n, z) != 0.0
      && i.lo == Center(i.p, n, z) - Half(n, z, root) && i.hi == Center(i.p, n, z) + Half(n, z, root)
    ensures var i := WilsonCi(s, n, z, root).value;
      i.lo <= x <= i.hi <==> (i.p - x) * (i.p - x) <= z * z / n * (x * (1.0 - x))
  {
    hide IsRoot, Radicand, Center, Half, Excess;
    CenterHalf(s, n, z, root, x);
    ExcessIs(s / n, z * z / n, x);
  }

  lemma CenterHalf(s: real, n: real, z: real, root: real, x: real)
    requires 0.0 <= s <= n && n > 0.0 && z > 0.0 && IsRoot(root, Radicand(s / n, n, z))
    ensures Denom(n, z) != 0.0
    ensures var c, h := Center(s / n, n, z), Half(n, z, root);
      && 0.0 <= c - h <= s / n <= c + h <= 1.0
      && (c - h <= x <= c + h <==> Excess(s / n, z * z / n, x) <= 0.0)
  {
    hide IsRoot, Radicand, Center, Half, Denom, Excess;
    DenomPositive(n, z);
    Scaled(s / n, n, z, root);
    Proportion(s, n);
    RootIs(root, Radicand(s / n, n, z));
    HalfNonNegative(n, z, root);
    Ends(s / n, z * z / n, x, Center(s / n, n, z), Half(n, z, root));
  }

  lemma HalfNonNegative(n: real, z: real, root: real)
    requires n > 0.0 && z > 0.0 && root >= 0.0
    ensures Half(n, z, root) >= 0.0
  {
    DenomPositive(n, z);
    NonNegativeQuotient(z, Denom(n, z));
    NonNegativeProduct(z / Denom(n, z), root);
  }

  lemma ExcessIs(p: real, a: real, x: real)
    ensures Excess(p, a, x) <= 0.0 <==> (p - x) * (p - x) <= a * (x * (1.0 - x))
  {
  }

  lemma Ends(p: real, a: real, x: real, c: real, h: real)
    requires 0.0 <= p <= 1.0 && a >= 0.0 && h >= 0.0
    requires var d := 1.0 + a; c * d == p + a / 2.0 && h * d * (h * d) == a * (p * (1.0 - p)) + a * a / 4.0
    ensures 0.0 <= c - h <= p <= c + h <= 1.0
    ensures c - h <= x <= c + h <==> Excess(p, a, x) <= 0.0
  {
    hide Excess;
    UnitEnds(p, a, c);
    Between(p, a, 0.0, c, h);
    Between(p, a, 1.0, c, h);
    Between(p, a, p, c, h);
    Between(p, a, x, c, h);
  }

  lemma RootIs(root: real, x: real)
    ensures IsRoot(root, x) ==> root >= 0.0
  {
  }

  lemma PositiveProduct(a: real, b: real)
    requires a > 0.0 && b > 0.0
    ensures a * b > 0.0
  {
  }

  lemma NonNegativeProduct(a: real, b: real)
    requires a >= 0.0 && b >= 0.0
    ensures a * b >= 0.0
  {
  }

  /** Some root exists to take: the radicand is never negative. */
  lemma RadicandNonNegative(s: real, n: real, z: real)
    requires 0.0 <= s <= n && n > 0.0
    ensures Radicand(s / n, n, z) >= 0.0
  {
    Proportion(s, n);
    var p := s / n;
    NonNegativeProduct(p, 1.0 - p);
    NonNegativeQuotient(p * (1.0 - p), n);
    assert z * z >= 0.0;
    NonNegativeQuotient(z * z, FourSquares(n));
  }
}
