/** The pass@k estimator: a running product that is a ratio of binomial coefficients, and so the
    share of k-subsets of the samples that hold a correct one.  Over the reals. */
module PassAtK {
  import opened Collections

  /** The product of 1 - k/i for i from lo to hi. */
  function Product(lo: int, hi: int, k: int): real
    requires lo >= 1
    decreases hi - lo + 1
  {
    if lo > hi then 1.0 else Product(lo, hi - 1, k) * (1.0 - k as real / hi as real)
  }

  /** The value the source computes. */
  function Value(n: int, c: int, k: int): real
    requires k >= 0
  {
    if c <= 0 then 0.0 else if n - c < k then 1.0 else 1.0 - Product(n - c + 1, n, k)
  }

  method Compute(n: int, c: int, k: int) returns (r: real)
    requires k >= 0
    ensures r == Value(n, c, k)
  {
    if c <= 0 {
      return 0.0;
    }
    if n - c < k {
      return 1.0;
    }
    var prod := 1.0;
    for i := n - c + 1 to n + 1
      invariant prod == Product(n - c + 1, i - 1, k)
    {
      prod := prod * (1.0 - k as real / i as real);
    }
    r := 1.0 - prod;
  }

  // ----- binomial coefficients

  function Choose(n: nat, k: nat): nat {
    if k == 0 then 1 else if n == 0 then 0 else Choose(n - 1, k - 1) + Choose(n - 1, k)
  }

  lemma {:induction false} ChoosePositive(n: nat, k: nat)
    ensures Choose(n, k) > 0 <==> k <= n
  {
    if n > 0 && k > 0 {
      ChoosePositive(n - 1, k - 1);
      ChoosePositive(n - 1, k);
    }
  }

  lemma {:induction false} Absorption(m: nat, k: nat)
    requires m >= 1 && k >= 1
    ensures k * Choose(m, k) == m * Choose(m - 1, k - 1)
  {
    if m == 1 {
      assert Choose(0, k) == 0;
      if k > 1 {
        assert Choose(0, k - 1) == 0;
      }
    } else {
      var a, b := Choose(m - 1, k - 1), Choose(m - 1, k);
      Absorption(m - 1, k);
      if k > 1 {
        Absorption(m - 1, k - 1);
        var p, q := Choose(m - 2, k - 2), Choose(m - 2, k - 1);
        assert a == p + q;
        AbsorptionStep(m, k, a, b, p, q);
      } else {
        assert a == 1;
      }
    }
  }

  lemma AbsorptionStep(m: int, k: int, a: int, b: int, p: int, q: int)
    requires k * b == (m - 1) * q && (k - 1) * a == (m - 1) * p && a == p + q
    ensures k * (a + b) == m * a
  {
    assert k * (a + b) == k * a + k * b;
    assert k * a == (k - 1) * a + a;
    assert (m - 1) * p + (m - 1) * q == (m - 1) * a;
  }

  lemma Distribute(a: int, b: int, m: int, k: int)
    ensures (a + b) * (m - k) == a * m + b * m - k * (a + b)
  {
    assert (a + b) * (m - k) == (a + b) * m - (a + b) * k;
    assert (a + b) * m == a * m + b * m;
  }

  /** One factor of the product. */
  lemma ChooseStep(m: nat, k: nat)
    requires m >= 1
    ensures Choose(m, k) * (m - k) == Choose(m - 1, k) * m
  {
    if k > 0 {
      Absorption(m, k);
      var a, b := Choose(m - 1, k - 1), Choose(m - 1, k);
      assert Choose(m, k) == a + b;
      Distribute(a, b, m, k);
    }
  }

  /** a/b, as a real. */
  function Ratio(a: nat, b: nat): real
    requires b > 0
  {
    a as real / b as real
  }

  lemma Quotient(y: real, z: real, f: real)
    requires z != 0.0 && z * f == y
    ensures y / z == f
  {
    assert z * (y / z) == y;
    assert z * (y / z - f) == 0.0;
  }

  lemma SelfQuotient(d: nat)
    requires d > 0
    ensures Ratio(d, d) == 1.0
  {
    Quotient(d as real, d as real, 1.0);
  }

  lemma RatioStep(x: nat, y: nat, z: nat, m: nat, k: nat)
    requires y > 0 && z > 0 && m > 0 && z * (m - k) == y * m
    ensures Ratio(x, y) * (1.0 - k as real / m as real) == Ratio(x, z)
  {
    var xr, yr, zr, mr, kr := x as real, y as real, z as real, m as real, k as real;
    var f := 1.0 - kr / mr;
    assert (z * (m - k)) as real == zr * (mr - kr);
    assert (y * m) as real == yr * mr;
    assert f * mr == mr - kr;
    assert (zr * f - yr) * mr == zr * (f * mr) - yr * mr;
    assert (zr * f - yr) * mr == 0.0;
    assert zr * f == yr;
    var q := xr / yr;
    assert q * yr == xr;
    assert zr * (q * f) == q * (zr * f);
    Quotient(xr, zr, q * f);
  }

  /** The product is a ratio of binomial coefficients. */
  lemma {:induction false} ProductIsRatio(m: nat, n: nat, k: nat)
    requires k <= m <= n
    ensures Choose(n, k) > 0
    ensures Product(m + 1, n, k) == Ratio(Choose(m, k), Choose(n, k))
    decreases n
  {
    ChoosePositive(n, k);
    if m == n {
      SelfQuotient(Choose(n, k));
    } else {
      ProductIsRatio(m, n - 1, k);
      ChooseStep(n, k);
      RatioStep(Choose(m, k), Choose(n - 1, k), Choose(n, k), n, k);
    }
  }

  /** For all 0 <= c <= n and 0 <= k <= n, also where the code takes one of its shortcuts. */
  lemma ValueIsBinomial(n: nat, c: nat, k: nat)
    requires c <= n && k <= n
    ensures Choose(n, k) > 0
    ensures Value(n, c, k) == 1.0 - Ratio(Choose(n - c, k), Choose(n, k))
  {
    ChoosePositive(n, k);
    ChoosePositive(n - c, k);
    if c == 0 {
      SelfQuotient(Choose(n, k));
    } else if n - c >= k {
      ProductIsRatio(n - c, n, k);
    } else {
      Quotient(0.0, Choose(n, k) as real, 0.0);
    }
  }

  // ----- counting subsets

  ghost function Subsets<T>(s: set<T>, k: nat): set<set<T>> {
    set t | t <= s && |t| == k
  }

  ghost function WithEach<T>(ts: set<set<T>>, x: T): set<set<T>> {
    set t | t in ts :: t + {x}
  }

  lemma {:induction false} WithEachCount<T>(ts: set<set<T>>, x: T)
    requires forall t | t in ts :: x !in t
    ensures |WithEach(ts, x)| == |ts|
  {
    if ts != {} {
      var t :| t in ts;
      WithEachCount(ts - {t}, x);
      assert t + {x} !in WithEach(ts - {t}, x) by {
        forall u | u in ts - {t}
          ensures u + {x} != t + {x}
        {
          assert (u + {x}) - {x} == u && (t + {x}) - {x} == t;
        }
      }
      assert WithEach(ts, x) == WithEach(ts - {t}, x) + {t + {x}};
    }
  }

  /** A set of n has as many k-subsets as the binomial coefficient says. */
  lemma {:induction false} SubsetCount<T>(s: set<T>, k: nat)
    ensures |Subsets(s, k)| == Choose(|s|, k)
    decreases |s|
  {
    if k == 0 {
      assert Subsets(s, k) == {{}};
    } else if s == {} {
      assert Subsets(s, k) == {};
    } else {
      var x :| x in s;
      var rest := s - {x};
      SubsetCount(rest, k);
      SubsetCount(rest, k - 1);
      SplitCount(s, x, k);
    }
  }

  lemma SplitCount<T>(s: set<T>, x: T, k: nat)
    requires x in s && k > 0
    ensures |Subsets(s, k)| == |Subsets(s - {x}, k)| + |Subsets(s - {x}, k - 1)|
  {
    WithEachCount(Subsets(s - {x}, k - 1), x);
    SplitSubsets(s, x, k);
  }

  lemma SplitSubsets<T>(s: set<T>, x: T, k: nat)
    requires x in s && k > 0
    ensures Subsets(s, k) == Subsets(s - {x}, k) + WithEach(Subsets(s - {x}, k - 1), x)
    ensures Subsets(s - {x}, k) !! WithEach(Subsets(s - {x}, k - 1), x)
  {
    forall t | t in Subsets(s, k)
      ensures t in Subsets(s - {x}, k) || t in WithEach(Subsets(s - {x}, k - 1), x)
    {
      if x in t {
        assert t == (t - {x}) + {x};
        assert t - {x} in Subsets(s - {x}, k - 1);
      }
    }
  }

  /** The k-subsets of the samples that hold at least one of the correct ones. */
  ghost function Hits<T>(samples: set<T>, correct: set<T>, k: nat): set<set<T>> {
    set t | t in Subsets(samples, k) && t * correct != {}
  }

  /** The estimator is the share of k-subsets that hold a correct sample. */
  lemma ValueIsShareOfSubsets<T>(samples: set<T>, correct: set<T>, k: nat)
    requires correct <= samples && k <= |samples|
    ensures |Subsets(samples, k)| > 0
    ensures Value(|samples|, |correct|, k) == Ratio(|Hits(samples, correct, k)|, |Subsets(samples, k)|)
  {
    var n, c := |samples|, |correct|;
    var wrong := samples - correct;
    SmallerSubset(correct, samples);
    assert |wrong| == n - c;
    SubsetCount(samples, k);
    SubsetCount(wrong, k);
    assert Hits(samples, correct, k) == Subsets(samples, k) - Subsets(wrong, k);
    assert Subsets(wrong, k) <= Subsets(samples, k);
    assert |Hits(samples, correct, k)| == Choose(n, k) - Choose(n - c, k);
    ValueIsBinomial(n, c, k);
    OneMinusRatio(Choose(n - c, k), Choose(n, k), |Hits(samples, correct, k)|);
  }

  lemma OneMinusRatio(a: nat, b: nat, d: nat)
    requires b > 0 && d == b - a
    ensures 1.0 - Ratio(a, b) == Ratio(d, b)
  {
    var ar, br := a as real, b as real;
    assert br * (ar / br) == ar;
    assert br * (1.0 - ar / br) == br - ar;
    Quotient(br - ar, br, 1.0 - ar / br);
    assert d as real == br - ar;
  }

  // ----- bounds and monotonicity

  lemma {:induction false} ChooseMonotone(m: nat, n: nat, k: nat)
    requires m <= n
    ensures Choose(m, k) <= Choose(n, k)
  {
    if m < n {
      ChooseMonotone(m, n - 1, k);
    }
  }

  lemma RatioMonotone(a: nat, b: nat, d: nat)
    requires a <= b && d > 0
    ensures Ratio(a, d) <= Ratio(b, d)
    ensures a < b ==> Ratio(a, d) < Ratio(b, d)
  {
    var ar, br, dr := a as real, b as real, d as real;
    assert dr * (ar / dr) == ar && dr * (br / dr) == br;
    assert dr * (br / dr - ar / dr) == br - ar;
  }

  /** Between 0 and 1, and at the ends only where it should be. */
  lemma ValueBounds(n: nat, c: nat, k: nat)
    requires c <= n && k <= n
    ensures 0.0 <= Value(n, c, k) <= 1.0
    ensures Value(n, c, k) == 1.0 <==> n - c < k
    ensures Value(n, c, k) == 0.0 <==> c == 0 || k == 0
  {
    hide Value, Choose, Ratio;
    ValueIsBinomial(n, c, k);
    var a, b := Choose(n - c, k), Choose(n, k);
    ChooseMonotone(n - c, n, k);
    ChoosePositive(n - c, k);
    RatioMonotone(a, b, b);
    RatioMonotone(0, a, b);
    SelfQuotient(b);
    NoneOver(b);
    if c > 0 && k > 0 {
      ChooseDrops(n, c, k);
    }
    ChooseNone(n - c);
    ChooseNone(n);
  }

  lemma NoneOver(b: nat)
    requires b > 0
    ensures Ratio(0, b) == 0.0
  {
    Quotient(0.0, b as real, 0.0);
  }

  lemma ChooseNone(n: nat)
    ensures Choose(n, 0) == 1
  {
  }

  lemma ChooseDrops(n: nat, c: nat, k: nat)
    requires 0 < c <= n && 0 < k <= n
    ensures Choose(n - c, k) < Choose(n, k)
  {
    ChooseMonotone(n - c, n - 1, k);
    ChoosePositive(n - 1, k - 1);
  }

  /** One sample drawn: the share of correct samples. */
  lemma ValueAtOne(n: nat, c: nat)
    requires c <= n && n >= 1
    ensures Value(n, c, 1) == Ratio(c, n)
  {
    ValueIsBinomial(n, c, 1);
    ChooseOne(n);
    ChooseOne(n - c);
    OneMinusRatio(n - c, n, c);
  }

  lemma {:induction false} ChooseOne(n: nat)
    ensures Choose(n, 1) == n
  {
    if n > 0 {
      ChooseOne(n - 1);
    }
  }

  lemma MonotoneInCorrect(n: nat, c: nat, d: nat, k: nat)
    requires c <= d <= n && k <= n
    ensures Value(n, c, k) <= Value(n, d, k)
  {
    ValueIsBinomial(n, c, k);
    ValueIsBinomial(n, d, k);
    ChooseMonotone(n - d, n - c, k);
    RatioMonotone(Choose(n - d, k), Choose(n - c, k), Choose(n, k));
  }

  function Factor(i: int, k: int): real
    requires i > 0
  {
    1.0 - k as real / i as real
  }

  lemma ProductUnfolds(lo: int, hi: int, k: int)
    requires lo >= 1
    ensures Product(lo, hi, k) == if lo > hi then 1.0 else Product(lo, hi - 1, k) * Factor(hi, k)
  {
  }

  lemma {:induction false} ProductMonotone(lo: int, hi: int, k: int, l: int)
    requires 0 <= k <= l < lo
    ensures 0.0 <= Product(lo, hi, l) <= Product(lo, hi, k)
    decreases hi - lo + 1
  {
    hide Product, Factor;
    ProductUnfolds(lo, hi, l);
    ProductUnfolds(lo, hi, k);
    if lo <= hi {
      ProductMonotone(lo, hi - 1, k, l);
      FactorMonotone(hi, k, l);
      Products(Product(lo, hi - 1, l), Product(lo, hi - 1, k), Factor(hi, l), Factor(hi, k));
    }
  }

  lemma FactorMonotone(i: int, k: int, l: int)
    requires 0 <= k <= l < i
    ensures 0.0 <= Factor(i, l) <= Factor(i, k)
  {
    var ir, kr, lr := i as real, k as real, l as real;
    assert lr / ir - kr / ir == (lr - kr) / ir;
    assert lr / ir <= ir / ir by {
      assert ir / ir - lr / ir == (ir - lr) / ir;
    }
  }

  lemma Products(a: real, b: real, f: real, g: real)
    requires 0.0 <= a <= b && 0.0 <= f <= g
    ensures 0.0 <= a * f <= b * g
  {
    assert a * f <= b * f;
    assert b * f <= b * g;
  }

  lemma MonotoneInDraws(n: nat, c: nat, k: nat, l: nat)
    requires c <= n && k <= l <= n
    ensures Value(n, c, k) <= Value(n, c, l)
  {
    if c > 0 {
      if n - c < l {
        ValueBounds(n, c, k);
      } else {
        ProductMonotone(n - c + 1, n, k, l);
      }
    }
  }
}
