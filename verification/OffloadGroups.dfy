/** Which tensors of a layer share a copy when the layer is offloaded: those that the handler keeps
    and that start at one address with one element type. */
module OffloadGroups {
  import opened OffloadInvariant
  import opened Tensors

  /** The handler takes both, and the second for the first. */
  predicate Shares(a: Saved, b: Saved) {
    && !a.stray && a.wanted && !b.stray && b.wanted
    && a.tensor.ptr == b.tensor.ptr && a.tensor.dtype == b.tensor.dtype
  }

  /** The place of the first tensor that shares its copy with `x`. */
  function FirstShared(xs: seq<Saved>, x: Saved): (r: nat)
    ensures r <= |xs| && (r < |xs| ==> Shares(xs[r], x))
    ensures forall y | 0 <= y < r :: !Shares(xs[y], x)
  {
    if xs == [] then 0 else
    var n := |xs| - 1;
    var r := FirstShared(xs[..n], x);
    if r < n || Shares(xs[n], x) then r else n + 1
  }

  /** Every tensor that is kept asks for as many elements as the copy it shares has. */
  ghost predicate LayerFits(xs: seq<Saved>) {
    forall i | 0 <= i < |xs| && Shares(xs[i], xs[i]) ::
      Numel(xs[i].tensor.shape) == |xs[FirstShared(xs, xs[i])].tensor.data|
  }

  /** Tensors that share a copy have the same elements. */
  ghost predicate LayerCoherent(xs: seq<Saved>) {
    forall i, k | 0 <= i < k < |xs| && Shares(xs[i], xs[k]) :: xs[i].tensor.data == xs[k].tensor.data
  }

  lemma StoredLast(xs: seq<Saved>)
    requires xs != []
    ensures var n := |xs| - 1;
      FirstMap(Stored(xs)) == if Shares(xs[n], xs[n]) then KeepFirst(FirstMap(Stored(xs[..n])), xs[n].tensor)
                              else FirstMap(Stored(xs[..n]))
  {
    var n := |xs| - 1;
    var ts, t := Stored(xs[..n]), xs[n].tensor;
    assert Stored(xs) == ts + if Shares(xs[n], xs[n]) then [t] else [];
    hide FirstMap, Stored, KeepFirst, Tensor.KeyOf;
    FirstMapMore(ts, t);
    assert ts + [] == ts;
  }

  lemma FirstMapMore(ts: seq<Tensor>, t: Tensor)
    ensures FirstMap(ts + [t]) == KeepFirst(FirstMap(ts), t)
  {
    hide FirstMap, KeepFirst;
    FirstMapSnoc(ts + [t], |ts|);
    assert (ts + [t])[..|ts|] == ts && (ts + [t])[..|ts| + 1] == ts + [t];
  }

  lemma FirstSharedLast(xs: seq<Saved>, x: Saved)
    requires xs != []
    ensures var n := |xs| - 1;
      FirstShared(xs, x) ==
      if FirstShared(xs[..n], x) < n || Shares(xs[n], x) then FirstShared(xs[..n], x) else n + 1
  {
  }

  lemma KeepFirstAt(m: map<Key, Tensor>, t: Tensor, k: Key)
    ensures k in KeepFirst(m, t) <==> k in m || k == t.KeyOf()
    ensures k in KeepFirst(m, t) ==> KeepFirst(m, t)[k] == if k in m then m[k] else t
  {
  }

  /** The copy that the handler keeps under the key of `x` is that of the first that shares it. */
  lemma {:induction false} FirstSharedIsCopied(xs: seq<Saved>, x: Saved)
    requires Shares(x, x)
    ensures var m, r := FirstMap(Stored(xs)), FirstShared(xs, x);
      (x.tensor.KeyOf() in m <==> r < |xs|) && (r < |xs| ==> m[x.tensor.KeyOf()] == xs[r].tensor)
  {
    hide FirstMap, Stored, KeepFirst, FirstShared;
    if xs == [] {
      NothingCopied();
    } else {
      var n := |xs| - 1;
      FirstSharedIsCopied(xs[..n], x);
      StoredLast(xs);
      FirstSharedLast(xs, x);
      KeepFirstAt(FirstMap(Stored(xs[..n])), xs[n].tensor, x.tensor.KeyOf());
    }
  }

  lemma NothingCopied()
    ensures FirstMap(Stored([])) == map[]
  {
  }

  /** Every place of a kept tensor is the place of a stored one. */
  lemma PlaceStored(xs: seq<Saved>, i: nat)
    requires i < |xs| && Shares(xs[i], xs[i])
    ensures |Stored(xs[..i])| < |Stored(xs)| && Stored(xs)[|Stored(xs[..i])|] == xs[i].tensor
  {
    StoredGrows(xs, i);
  }

  lemma {:induction false} StoredPlace(xs: seq<Saved>, x: nat) returns (i: nat)
    requires x < |Stored(xs)|
    ensures i < |xs| && Shares(xs[i], xs[i]) && Stored(xs)[x] == xs[i].tensor
  {
    var n := |xs| - 1;
    if x < |Stored(xs[..n])| {
      i := StoredPlace(xs[..n], x);
    } else {
      i := n;
    }
  }

  lemma FitsIff(xs: seq<Saved>)
    ensures LayerFits(xs) <==> Fits(Stored(xs))
  {
    var ts := Stored(xs);
    hide Stored, FirstMap, FirstShared;
    if LayerFits(xs) {
      forall x | 0 <= x < |ts|
        ensures Numel(ts[x].shape) == |FirstMap(ts)[ts[x].KeyOf()].data|
      {
        var i := StoredPlace(xs, x);
        FirstSharedIsCopied(xs, xs[i]);
      }
    }
    if Fits(ts) {
      forall i | 0 <= i < |xs| && Shares(xs[i], xs[i])
        ensures Numel(xs[i].tensor.shape) == |xs[FirstShared(xs, xs[i])].tensor.data|
      {
        PlaceStored(xs, i);
        FirstSharedIsCopied(xs, xs[i]);
      }
    }
  }

  /** Reading back one copy for all that share it returns every tensor's own elements exactly when
      the layer is coherent. */
  lemma CoherentIffFirstAgrees(xs: seq<Saved>)
    ensures LayerCoherent(xs) <==>
            forall i | 0 <= i < |xs| && Shares(xs[i], xs[i]) ::
              xs[FirstShared(xs, xs[i])].tensor.data == xs[i].tensor.data
  {
    hide FirstShared;
    if forall i | 0 <= i < |xs| && Shares(xs[i], xs[i]) ::
      xs[FirstShared(xs, xs[i])].tensor.data == xs[i].tensor.data
    {
      forall i, k | 0 <= i < k < |xs| && Shares(xs[i], xs[k])
        ensures xs[i].tensor.data == xs[k].tensor.data
      {
        assert FirstShared(xs, xs[i]) == FirstShared(xs, xs[k]);
      }
    }
  }

  lemma CoherentFits(xs: seq<Saved>)
    requires LayerCoherent(xs) && forall i | 0 <= i < |xs| :: xs[i].tensor.WellFormed()
    ensures LayerFits(xs)
  {
    CoherentIffFirstAgrees(xs);
  }
}
