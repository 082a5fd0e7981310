/** Rank 0 reads the batches and scatters one to every rank in each round. */
module Dispatcher {
  import opened Collections
  import opened Shard
  import opened Wrappers

  /** The shared iterator ended while batches were being skipped. */
  datatype Error = SkipPastEnd

  /** What rank `r` of `w` receives from the batches that are left. */
  function Received<T>(items: seq<T>, r: nat, w: nat): seq<T>
    requires r < w
    decreases |items|
  {
    if |items| < w then [] else [items[r]] + Received(items[w..], r, w)
  }

  /** All ranks stop after the same number of rounds, and rank `r` has items r, r + W, and so on. */
  lemma {:induction false} ReceivedAt<T>(items: seq<T>, r: nat, w: nat)
    requires r < w
    ensures |Received(items, r, w)| == |items| / w
    ensures forall k | 0 <= k < |items| / w :: 0 <= r + k * w < |items| && Received(items, r, w)[k] == items[r + k * w]
    decreases |items|
  {
    if |items| < w {
      SmallDiv(|items|, w);
    } else {
      var rest := items[w..];
      ReceivedAt(rest, r, w);
      DivStep(|rest|, w);
      forall k | 0 <= k < |items| / w
        ensures 0 <= r + k * w < |items| && Received(items, r, w)[k] == items[r + k * w]
      {
        if k > 0 {
          assert r + k * w == w + (r + (k - 1) * w);
          assert Received(items, r, w)[k] == Received(rest, r, w)[k - 1] == rest[r + (k - 1) * w];
        }
      }
    }
  }

  // ----- the collective rounds

  /** The shared iterator on rank 0, what every rank has yielded so far, and which ranks have left
      their loop. */
  class DataLoaderDispatcher<T> {
    const worldSize: nat
    const skipBatches: nat
    var base: seq<T>
    var yielded: seq<seq<T>>
    var stopped: set<nat>

    ghost predicate Valid()
      reads this
    {
      worldSize > 0 && |yielded| == worldSize
    }

    constructor (w: nat, skip: nat, items: seq<T>)
      requires w > 0
      ensures Valid() && worldSize == w && skipBatches == skip && base == items && stopped == {}
      ensures forall r | 0 <= r < w :: yielded[r] == []
    {
      worldSize, skipBatches, base := w, skip, items;
      yielded, stopped := seq(w, _ => []), {};
    }

    /** Rank 0 drops whole rounds; past the end the iterator raises. */
    method SkipBatches() returns (r: Result<(), Error>)
      requires Valid()
      modifies `base
      ensures r.Ok? <==> skipBatches * worldSize <= |old(base)|
      ensures r.Ok? ==> base == old(base)[skipBatches * worldSize..]
    {
      for k := 0 to skipBatches
        invariant k * worldSize <= |old(base)| && base == old(base)[k * worldSize..]
      {
        assert (k + 1) * worldSize == k * worldSize + worldSize;
        if |base| < worldSize {
          TooFew(k + 1, skipBatches, worldSize);
          return Err(SkipPastEnd);
        }
        base := base[worldSize..];
      }
      r := Ok(());
    }

    /** One collective round: an item for every rank, or the signal that ends all of them. */
    method ScatterRound() returns (more: bool)
      requires Valid()
      modifies this
      ensures Valid() && (more <==> |old(base)| >= worldSize)
      ensures more ==> base == old(base)[worldSize..] && stopped == old(stopped)
      ensures more ==> forall r | 0 <= r < worldSize :: yielded[r] == old(yielded[r]) + [old(base)[r]]
      ensures !more ==> yielded == old(yielded) && forall r: nat :: r in stopped <==> r < worldSize || r in old(stopped)
    {
      var data: seq<Option<T>> := [];
      var left := base;
      while |data| < worldSize && left != []
        invariant |data| <= worldSize && |data| <= |base| && left == base[|data|..]
        invariant forall k | 0 <= k < |data| :: data[k] == Some(base[k])
      {
        data, left := data + [Some(left[0])], left[1..];
      }
      more := |data| == worldSize;
      if !more {
        data := seq(worldSize, _ => None);
      }
      base := left;
      assert forall k | 0 <= k < worldSize :: data[k] == if more then Some(old(base)[k]) else None;
      for r := 0 to worldSize
        invariant Valid() && base == left && |data| == worldSize
        invariant more ==> stopped == old(stopped)
        invariant !more ==> yielded == old(yielded)
        invariant more ==> forall k | 0 <= k < r :: yielded[k] == old(yielded[k]) + [old(base)[k]]
        invariant more ==> forall k | r <= k < worldSize :: yielded[k] == old(yielded[k])
        invariant !more ==> forall k: nat :: k in stopped <==> k in old(stopped) || k < r
      {
        match data[r]
        case None =>
          stopped := stopped + {r};
        case Some(item) =>
          yielded := yielded[r := yielded[r] + [item]];
      }
    }

    /** The loops of all ranks together: they stop in the same round, and every rank has yielded
        the items of its position after the skip. */
    method Run() returns (r: Result<(), Error>)
      requires Valid() && stopped == {} && forall k | 0 <= k < worldSize :: yielded[k] == []
      modifies this
      ensures r.Ok? <==> skipBatches * worldSize <= |old(base)|
      ensures r.Ok? ==> Valid() && (forall k: nat :: k in stopped <==> k < worldSize)
      ensures r.Ok? ==> forall k | 0 <= k < worldSize ::
        yielded[k] == Received(old(base)[skipBatches * worldSize..], k, worldSize)
    {
      r := SkipBatches();
      if r.Err? {
        return;
      }
      hide Received, Dealt;
      ghost var items := base;
      var more := true;
      DealtNothing(items, yielded, worldSize);
      while more
        invariant Valid()
        invariant more ==> stopped == {}
        invariant !more ==> forall k: nat :: k in stopped <==> k < worldSize
        invariant Dealt(items, base, yielded, worldSize, more)
        decreases more, |base|
      {
        ghost var left, before := base, yielded;
        more := ScatterRound();
        DealtRound(items, left, before, yielded, worldSize, more);
      }
      DealtAll(items, base, yielded, worldSize);
    }
  }

  /** What the ranks have, followed by what is left, is what they receive. */
  ghost predicate Dealt<T>(items: seq<T>, left: seq<T>, yielded: seq<seq<T>>, w: nat, more: bool)
    requires |yielded| == w
  {
    forall k | 0 <= k < w :: Received(items, k, w) == yielded[k] + (if more then Received(left, k, w) else [])
  }

  lemma DealtNothing<T>(items: seq<T>, yielded: seq<seq<T>>, w: nat)
    requires |yielded| == w && forall k | 0 <= k < w :: yielded[k] == []
    ensures Dealt(items, items, yielded, w, true)
  {
  }

  lemma DealtRound<T>(items: seq<T>, left: seq<T>, yielded: seq<seq<T>>, yielded': seq<seq<T>>, w: nat, more: bool)
    requires |yielded| == |yielded'| == w && w > 0 && Dealt(items, left, yielded, w, true)
    requires more <==> |left| >= w
    requires if more then forall k | 0 <= k < w :: yielded'[k] == yielded[k] + [left[k]] else yielded' == yielded
    ensures Dealt(items, if more then left[w..] else [], yielded', w, more)
    ensures !more ==> forall rest :: Dealt(items, rest, yielded', w, more)
  {
    hide Received;
    forall k | 0 <= k < w
      ensures Received(items, k, w) == yielded'[k] + (if more then Received(left[w..], k, w) else [])
    {
      ReceivedStep(left, k, w);
    }
  }

  lemma DealtAll<T>(items: seq<T>, left: seq<T>, yielded: seq<seq<T>>, w: nat)
    requires |yielded| == w && Dealt(items, left, yielded, w, false)
    ensures forall k | 0 <= k < w :: yielded[k] == Received(items, k, w)
  {
  }

  lemma ReceivedStep<T>(items: seq<T>, r: nat, w: nat)
    requires r < w
    ensures Received(items, r, w) == if |items| < w then [] else [items[r]] + Received(items[w..], r, w)
  {
  }

  lemma TooFew(k: nat, skip: nat, w: nat)
    requires k <= skip
    ensures k * w <= skip * w
  {
    assert skip * w == k * w + (skip - k) * w;
    assert (skip - k) * w >= 0;
  }

  // ----- the two ways of dealing agree

  lemma {:induction false} ReceivedIsStride(items: seq<int>, r: nat, w: nat)
    requires r < w
    ensures Received(items, r, w) == Stride(items[..|items| / w * w], r, w)
  {
    var t := |items| / w;
    Fits(|items|, w);
    ReceivedAt(items, r, w);
    StrideAt(items[..t * w], r, w, t);
  }

  lemma Fits(n: nat, w: nat)
    requires w > 0
    ensures 0 <= n / w * w <= n
  {
    assert n == n / w * w + n % w;
  }

  function Singletons(s: seq<int>): (r: seq<seq<int>>)
    ensures |r| == |s| && forall k | 0 <= k < |r| :: r[k] == [s[k]]
  {
    seq(|s|, k requires 0 <= k < |s| => [s[k]])
  }

  lemma {:induction false} BatchesOfOne(s: seq<int>, dropLast: bool)
    ensures Batches(s, 1, dropLast) == Singletons(s)
  {
    if s != [] {
      BatchesOfOne(s[1..], dropLast);
      assert s[..1] == [s[0]];
      assert Singletons(s) == [s[..1]] + Singletons(s[1..]);
    }
  }

  /** Scattering the dataset in order gives rank `r` the same items, in the same order, as the
      sampler without shuffling and with batches of one. */
  lemma DispatcherMatchesSampler(randperm: Shuffler, seed: int, n: nat, r: nat, w: nat, dropLast: bool)
    requires r < w
    ensures Singletons(Received(Iota(n), r, w)) == Batches(Indices(randperm, false, seed, n, r, w), 1, dropLast)
  {
    hide Received, Stride, Range, Batches;
    Fits(n, w);
    ReceivedIsStride(Iota(n), r, w);
    assert Iota(n)[..n / w * w] == Iota(n / w * w);
    IndicesAreDealt(randperm, false, seed, n, r, w);
    BatchesOfOne(Indices(randperm, false, seed, n, r, w), dropLast);
  }

  /** Resuming after `skip` rounds gives what the sampler would have given from batch `skip` on. */
  lemma SkipResumes(items: seq<int>, skip: nat, r: nat, w: nat)
    requires r < w && skip * w <= |items|
    ensures skip <= |Received(items, r, w)|
    ensures Received(items[skip * w..], r, w) == Received(items, r, w)[skip..]
    decreases skip
  {
    if skip == 0 {
      assert items[0..] == items;
    } else {
      assert skip * w == (skip - 1) * w + w;
      assert (skip - 1) * w >= 0;
      var rest := items[w..];
      SkipResumes(rest, skip - 1, r, w);
      DivStep(|rest|, w);
      assert rest[(skip - 1) * w..] == items[skip * w..];
      ReceivedAt(items, r, w);
      ReceivedAt(rest, r, w);
      assert Received(items, r, w)[1..] == Received(rest, r, w);
    }
  }
}
