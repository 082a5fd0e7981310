/** The call to the bin-packing library: what it promises, and a best-fit packer that keeps it. */
module BinPacking {
  import opened Collections

  /** A sample and the length it is packed by. */
  datatype Sample<+T> = Sample(item: T, length: nat)

  function Sum<T>(bin: seq<Sample<T>>): nat {
    if bin == [] then 0 else Sum(bin[..|bin| - 1]) + bin[|bin| - 1].length
  }

  /** A bin within the volume; a sample that alone exceeds it gets a bin of its own. */
  predicate BinOk<T>(bin: seq<Sample<T>>, volume: nat) {
    bin != [] && (Sum(bin) <= volume || |bin| == 1)
  }

  ghost predicate Packs<T>(xs: seq<Sample<T>>, bins: seq<seq<Sample<T>>>, volume: nat) {
    && (xs != [] ==> bins != [])
    && multiset(Flatten(bins)) == multiset(xs)
    && (forall b | b in bins :: BinOk(b, volume))
  }

  /** `binpacking.to_constant_volume`, for every list handed to it. */
  ghost predicate IsPacker<T(!new)>(pack: seq<Sample<T>> -> seq<seq<Sample<T>>>, volume: nat) {
    forall xs {:trigger pack(xs)} | xs != [] :: Packs(xs, pack(xs), volume)
  }

  /** The bins to emit and the bin to carry over. */
  function CalculateMatchedGroup<T>(pack: seq<Sample<T>> -> seq<seq<Sample<T>>>, xs: seq<Sample<T>>, isFinished: bool)
    : (seq<seq<Sample<T>>>, seq<Sample<T>>)
  {
    if xs == [] then ([], []) else
    var bins := pack(xs);
    if bins != [] && !isFinished then (bins[..|bins| - 1], bins[|bins| - 1]) else (bins, [])
  }

  /** The bins emitted, followed by the one carried over, are what the packer makes, in its order; so
      nothing is lost or made up. */
  lemma MatchedGroupConserves<T(!new)>(pack: seq<Sample<T>> -> seq<seq<Sample<T>>>, volume: nat, xs: seq<Sample<T>>,
        isFinished: bool)
    requires IsPacker(pack, volume)
    ensures var r := CalculateMatchedGroup(pack, xs, isFinished);
            && multiset(Flatten(r.0)) + multiset(r.1) == multiset(xs)
            && (isFinished || xs == [] ==> r.1 == [])
            && (!isFinished && xs != [] ==> BinOk(r.1, volume))
            && (forall b | b in r.0 :: BinOk(b, volume))
            && (xs != [] ==> pack(xs) == if isFinished then r.0 else r.0 + [r.1])
  {
    if xs != [] {
      assert Packs(xs, pack(xs), volume);
    }
  }

  // ----- best fit: the fullest bin that still has room, or a new one

  function Fullest<T>(bins: seq<seq<Sample<T>>>, x: Sample<T>, volume: nat): (r: int)
    ensures -1 <= r < |bins|
    ensures r >= 0 ==> Sum(bins[r]) + x.length <= volume
    ensures forall k | 0 <= k < |bins| && Sum(bins[k]) + x.length <= volume :: r >= 0 && Sum(bins[k]) <= Sum(bins[r])
  {
    if bins == [] then -1 else
    var n := |bins| - 1;
    var r := Fullest(bins[..n], x, volume);
    if Sum(bins[n]) + x.length <= volume && (r < 0 || Sum(bins[r]) < Sum(bins[n])) then n else r
  }

  function BestFit<T>(xs: seq<Sample<T>>, volume: nat): seq<seq<Sample<T>>> {
    if xs == [] then [] else
    var bins := BestFit(xs[..|xs| - 1], volume);
    var x := xs[|xs| - 1];
    var r := Fullest(bins, x, volume);
    if r < 0 then bins + [[x]] else bins[r := bins[r] + [x]]
  }

  lemma {:induction false} FlattenUpdate<T>(bins: seq<seq<T>>, r: nat, x: T)
    requires r < |bins|
    ensures multiset(Flatten(bins[r := bins[r] + [x]])) == multiset(Flatten(bins)) + multiset{x}
  {
    var n := |bins| - 1;
    var bins' := bins[r := bins[r] + [x]];
    if r < n {
      assert bins'[..n] == bins[..n][r := bins[..n][r] + [x]];
      FlattenUpdate(bins[..n], r, x);
    } else {
      assert bins'[..n] == bins[..n];
    }
  }

  /** The library's promise can be kept. */
  lemma {:induction false} BestFitPacks<T>(xs: seq<Sample<T>>, volume: nat)
    ensures Packs(xs, BestFit(xs, volume), volume)
  {
    if xs != [] {
      var n := |xs| - 1;
      var bins := BestFit(xs[..n], volume);
      var x := xs[n];
      BestFitPacks(xs[..n], volume);
      assert xs == xs[..n] + [x];
      var r := Fullest(bins, x, volume);
      if r < 0 {
        assert BestFit(xs, volume)[..|bins|] == bins;
        assert Sum([x]) == x.length;
      } else {
        FlattenUpdate(bins, r, x);
        assert (bins[r] + [x])[..|bins[r]|] == bins[r];
        assert Sum(bins[r] + [x]) == Sum(bins[r]) + x.length;
      }
    }
  }

  lemma BestFitIsPacker<T(!new)>(volume: nat)
    ensures IsPacker((xs: seq<Sample<T>>) => BestFit(xs, volume), volume)
  {
    var pack := (xs: seq<Sample<T>>) => BestFit(xs, volume);
    forall xs: seq<Sample<T>> | xs != []
      ensures Packs(xs, pack(xs), volume)
    {
      BestFitPacks(xs, volume);
    }
  }
}
