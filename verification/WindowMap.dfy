/** The window map of the double-buffered offload handler: the commit at which each
    offloaded group's device buffer is released.  Built by a loop that carries a constant. */
module WindowMap {
  import opened Collections

  /** Closed form of entry i for g offload groups over l layers. */
  function Window(g: nat, l: nat, i: int): int
    requires g > 0
  {
    (l / g) * (i + 1) - 1 + Min(i + 1, l % g)
  }

  /** What the schedule needs of a window map; the loop's result has it (BuiltWindowIsGood). */
  ghost predicate Good(g: nat, l: nat, w: map<int, int>) {
    && 1 <= g <= l
    && (forall i :: i in w <==> 0 <= i < g)
    && (forall i, j | 0 <= i < j < g :: w[i] < w[j])
    && (forall i | 0 <= i < g :: i <= w[i] < l)
    && w[g - 1] == l - 1
    && (g < l ==> forall i | 0 <= i < g :: i + 1 <= w[i])
    && (g == l ==> forall i | 0 <= i < g :: w[i] == i)
  }

  /** The loop of the handler's constructor. */
  method Build(g: nat, l: nat) returns (w: map<int, int>)
    ensures forall i :: i in w <==> 0 <= i < g
    ensures forall i | 0 <= i < g :: w[i] == Window(g, l, i)
  {
    w := map[];
    var constant := 0;
    for i := 0 to g
      invariant forall k :: k in w <==> 0 <= k < i
      invariant g > 0 ==> constant == Min(i, l % g)
      invariant forall k | 0 <= k < i :: w[k] == Window(g, l, k)
    {
      w := w[i := (l / g) * (i + 1) - 1];
      if i < l % g {
        w := w[i := w[i] + (i + 1)];
        constant := i + 1;
      } else {
        w := w[i := w[i] + constant];
      }
    }
  }

  /** Consecutive entries differ by the quotient, or by one more while the remainder lasts. */
  lemma Gap(g: nat, l: nat, i: int)
    requires g > 0
    ensures Window(g, l, i + 1) - Window(g, l, i) == l / g + (if i + 1 < l % g then 1 else 0)
  {
    var q := l / g;
    assert q * (i + 2) == q * (i + 1) + q;
  }

  lemma {:induction false} Increasing(g: nat, l: nat, i: int, j: int)
    requires 1 <= g <= l && i < j
    ensures Window(g, l, i) < Window(g, l, j)
    decreases j - i
  {
    Gap(g, l, j - 1);
    QuotientPositive(g, l);
    if i < j - 1 {
      Increasing(g, l, i, j - 1);
    }
  }

  lemma QuotientPositive(g: nat, l: nat)
    requires 1 <= g <= l
    ensures l / g >= 1
  {
  }

  lemma AtLeastTwice(q: nat, k: nat)
    requires q >= 2
    ensures q * k >= 2 * k
  {
    assert q * k == (q - 2) * k + 2 * k;
    assert (q - 2) * k >= 0;
  }

  lemma Bounds(g: nat, l: nat, i: int)
    requires 1 <= g <= l && 0 <= i
    ensures i <= Window(g, l, i)
    ensures g < l ==> i + 1 <= Window(g, l, i)
    ensures g == l ==> Window(g, l, i) == i
    ensures Window(g, l, g - 1) == l - 1
  {
    var q, r := l / g, l % g;
    QuotientPositive(g, l);
    assert q * g + r == l;
    if q == 1 {
      assert q * (i + 1) == i + 1;
    } else {
      AtLeastTwice(q, i + 1);
    }
    assert q * (g - 1 + 1) == q * g;
    if g == l {
      assert q == 1 && r == 0;
    }
  }

  lemma BuiltWindowIsGood(g: nat, l: nat, w: map<int, int>)
    requires 1 <= g <= l
    requires forall i :: i in w <==> 0 <= i < g
    requires forall i | 0 <= i < g :: w[i] == Window(g, l, i)
    ensures Good(g, l, w)
  {
    forall i, j | 0 <= i < j < g
      ensures w[i] < w[j]
    {
      Increasing(g, l, i, j);
    }
    forall i | 0 <= i < g
      ensures i <= w[i] < l
      ensures g < l ==> i + 1 <= w[i]
      ensures g == l ==> w[i] == i
    {
      Bounds(g, l, i);
      if i < g - 1 {
        Increasing(g, l, i, g - 1);
      }
    }
    Bounds(g, l, g - 1);
  }
}
