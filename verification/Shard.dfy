/** Dealing the samples of a dataset to data-parallel ranks, in batches. */
module Shard {
  import opened Collections

  /** Every `w`-th element from position `r` on. */
  function Stride(s: seq<int>, r: nat, w: nat): seq<int>
    requires w > 0
    decreases |s| - r
  {
    if r < |s| then [s[r]] + Stride(s, r + w, w) else []
  }

  /** `range(r, stop, w)`. */
  function Range(r: nat, stop: nat, w: nat): seq<int>
    requires w > 0
    decreases stop - r
  {
    if r < stop then [r] + Range(r + w, stop, w) else []
  }

  lemma {:induction false} RangeIsStride(r: nat, stop: nat, w: nat)
    requires w > 0
    ensures Range(r, stop, w) == Stride(Iota(stop), r, w)
    decreases stop - r
  {
    if r < stop {
      RangeIsStride(r + w, stop, w);
    }
  }

  // ----- the shares of the ranks

  lemma {:induction false} StrideShift(s: seq<int>, r: nat, w: nat)
    requires w > 0 && w <= |s|
    ensures Stride(s, r + w, w) == Stride(s[w..], r, w)
    decreases |s| - r
  {
    if r + w < |s| {
      StrideShift(s, r + w, w);
    }
  }

  lemma {:induction false} StrideAt(s: seq<int>, r: nat, w: nat, t: nat)
    requires r < w && |s| == t * w
    ensures |Stride(s, r, w)| == t
    ensures forall k | 0 <= k < t :: 0 <= r + k * w < |s| && Stride(s, r, w)[k] == s[r + k * w]
    decreases t
  {
    if t > 0 {
      assert |s| == (t - 1) * w + w;
      assert |s| >= w by {
        assert (t - 1) * w >= 0;
      }
      StrideShift(s, r, w);
      StrideAt(s[w..], r, w, t - 1);
      forall k | 0 <= k < t
        ensures 0 <= r + k * w < |s| && Stride(s, r, w)[k] == s[r + k * w]
      {
        if k > 0 {
          assert r + k * w == w + (r + (k - 1) * w);
          assert Stride(s, r, w)[k] == Stride(s[w..], r, w)[k - 1];
        }
      }
    }
  }

  ghost function Share(s: seq<int>, r: nat, w: nat): multiset<int>
    requires w > 0
  {
    multiset(Stride(s, r, w))
  }

  /** What the ranks below `n` get together. */
  ghost function Shares(s: seq<int>, w: nat, n: nat): multiset<int>
    requires w > 0
  {
    if n == 0 then multiset{} else Shares(s, w, n - 1) + Share(s, n - 1, w)
  }

  /** The first `n` of them, which are the first round. */
  ghost function First(s: seq<int>, n: nat): multiset<int>
    requires n <= |s|
  {
    multiset(s[..n])
  }

  lemma {:induction false} SharesShift(s: seq<int>, w: nat, n: nat)
    requires w > 0 && w <= |s| && n <= w
    ensures Shares(s, w, n) == First(s, n) + Shares(s[w..], w, n)
  {
    hide *;
    var rest := s[w..];
    SharesUnfold(s, w, n);
    SharesUnfold(rest, w, n);
    if n == 0 {
      NoFirst(s);
    } else {
      SharesShift(s, w, n - 1);
      FirstOfShare(s, w, n - 1);
      FirstMore(s, n - 1);
      var a, b, x, share := First(s, n - 1), Shares(rest, w, n - 1), multiset{s[n - 1]}, Share(rest, n - 1, w);
      calc {
        Shares(s, w, n);
        a + b + (x + share);
        { Regroup(a, b, x, share); }
        a + x + (b + share);
        First(s, n) + Shares(rest, w, n);
      }
    }
  }

  lemma NoFirst(s: seq<int>)
    ensures First(s, 0) == multiset{}
  {
    assert s[..0] == [];
  }

  lemma SharesUnfold(s: seq<int>, w: nat, n: nat)
    requires w > 0
    ensures Shares(s, w, n) == if n == 0 then multiset{} else Shares(s, w, n - 1) + Share(s, n - 1, w)
  {
    hide Stride;
  }

  lemma FirstOfShare(s: seq<int>, w: nat, r: nat)
    requires w > 0 && r < w <= |s|
    ensures Share(s, r, w) == multiset{s[r]} + Share(s[w..], r, w)
  {
    StrideShift(s, r, w);
  }

  lemma FirstMore(s: seq<int>, n: nat)
    requires n < |s|
    ensures First(s, n + 1) == First(s, n) + multiset{s[n]}
  {
    assert s[..n + 1] == s[..n] + [s[n]];
  }

  lemma Regroup(a: multiset<int>, b: multiset<int>, c: multiset<int>, d: multiset<int>)
    ensures a + b + (c + d) == a + c + (b + d)
  {
  }

  lemma {:induction false} NoShares(w: nat, n: nat)
    requires w > 0
    ensures Shares([], w, n) == multiset{}
  {
    if n > 0 {
      NoShares(w, n - 1);
    }
  }

  /** The ranks together get every element of a list of whole rounds exactly once. */
  lemma {:induction false} SharesAreAll(s: seq<int>, w: nat, t: nat)
    requires w > 0 && |s| == t * w
    ensures Shares(s, w, w) == multiset(s)
    decreases t
  {
    hide Shares;
    if t == 0 {
      assert s == [];
      NoShares(w, w);
    } else {
      assert |s| == (t - 1) * w + w;
      assert |s| >= w by {
        assert (t - 1) * w >= 0;
      }
      SharesShift(s, w, w);
      SharesAreAll(s[w..], w, t - 1);
      assert s == s[..w] + s[w..];
    }
  }

  // ----- batches

  function Batches(s: seq<int>, b: nat, dropLast: bool): seq<seq<int>>
    requires b > 0
  {
    if |s| >= b then [s[..b]] + Batches(s[b..], b, dropLast)
    else if dropLast || s == [] then [] else [s]
  }

  /** The length that the sampler announces. */
  function NumBatches(n: nat, b: nat, dropLast: bool): nat
    requires b > 0
  {
    if dropLast then n / b else (n + b - 1) / b
  }

  lemma AtLeast(k: int, b: int)
    requires k >= 1 && b > 0
    ensures k * b >= b
  {
    assert k * b == (k - 1) * b + b;
    assert (k - 1) * b >= 0;
  }

  lemma SmallMultiple(k: int, b: int)
    requires b > 0 && -b < k * b < b
    ensures k == 0
  {
    if k >= 1 {
      AtLeast(k, b);
    } else if k <= -1 {
      AtLeast(-k, b);
    }
  }

  lemma Quotient(n: int, b: int, q: int, r: int)
    requires b > 0 && n == q * b + r && 0 <= r < b
    ensures n / b == q && n % b == r
  {
    assert n == n / b * b + n % b;
    assert (n / b - q) * b == r - n % b;
    SmallMultiple(n / b - q, b);
  }

  lemma DivStep(n: int, b: int)
    requires b > 0
    ensures (n + b) / b == n / b + 1
    ensures (n + b) % b == n % b
  {
    assert (n / b + 1) * b == n / b * b + b;
    Quotient(n + b, b, n / b + 1, n % b);
  }

  lemma SmallDiv(n: int, b: int)
    requires 0 <= n < b
    ensures n / b == 0
  {
  }

  /** As many batches as announced, each full but perhaps the last; they hold the indices in order,
      all of them, or all but an incomplete last batch. */
  lemma {:induction false} BatchesHold(s: seq<int>, b: nat, dropLast: bool)
    requires b > 0
    ensures var r := Batches(s, b, dropLast);
      && |r| == NumBatches(|s|, b, dropLast)
      && (forall k | 0 <= k < |r| :: 0 < |r[k]| <= b && (k + 1 < |r| || dropLast ==> |r[k]| == b))
      && Flatten(r) <= s
      && |s| - |Flatten(r)| == (if dropLast then |s| % b else 0)
  {
    hide Flatten;
    var r := Batches(s, b, dropLast);
    if |s| >= b {
      var rest := Batches(s[b..], b, dropLast);
      BatchesHold(s[b..], b, dropLast);
      assert r == [s[..b]] + rest;
      FlattenConcat([s[..b]], rest);
      FlattenOne(s[..b]);
      assert s == s[..b] + s[b..];
      DivStep(|s| - b, b);
      DivStep(|s| - 1, b);
      forall k | 0 <= k < |r|
        ensures 0 < |r[k]| <= b && (k + 1 < |r| || dropLast ==> |r[k]| == b)
      {
        if k > 0 {
          assert r[k] == rest[k - 1];
        }
      }
    } else {
      SmallDiv(|s|, b);
      if s != [] {
        DivStep(|s| - 1, b);
        SmallDiv(|s| - 1, b);
      } else {
        SmallDiv(b - 1, b);
      }
      if r != [] {
        FlattenOne(s);
      } else {
        FlattenNone<int>();
      }
    }
  }

  lemma FlattenOne(s: seq<int>)
    ensures Flatten([s]) == s
  {
    assert [s][..0] == [];
  }

  // ----- the sampler

  /** The process group: the rank and the number of processes, or none. */
  datatype Group = Alone | Group(rank: nat, world: nat)

  /** The permutation that a seed and a length give. */
  type Shuffler = (int, nat) -> seq<int>

  ghost predicate Permutes(randperm: Shuffler) {
    forall seed, n :: multiset(randperm(seed, n)) == multiset(Iota(n))
  }

  function Rank(group: Group, tp: nat): nat
    requires tp > 0
  {
    match group
    case Alone => 0
    case Group(rank, _) => rank / tp
  }

  function WorldSize(group: Group, tp: nat): nat
    requires tp > 0
  {
    match group
    case Alone => 1
    case Group(_, world) => world / tp
  }

  /** The indices of a rank in one epoch. */
  function Indices(randperm: Shuffler, shuffle: bool, seed: int, n: nat, rank: nat, world: nat): seq<int>
    requires world > 0
  {
    var total := n / world * world;
    if shuffle then Stride(randperm(seed, total), rank, world) else Range(rank, total, world)
  }

  ghost function AllIndices(randperm: Shuffler, shuffle: bool, seed: int, n: nat, world: nat, ranks: nat): multiset<int>
    requires world > 0
  {
    if ranks == 0 then multiset{}
    else
      AllIndices(randperm, shuffle, seed, n, world, ranks - 1)
      + multiset(Indices(randperm, shuffle, seed, n, ranks - 1, world))
  }

  /** The list that is dealt out. */
  function Order(randperm: Shuffler, shuffle: bool, seed: int, total: nat): seq<int> {
    if shuffle then randperm(seed, total) else Iota(total)
  }

  lemma IndicesAreDealt(randperm: Shuffler, shuffle: bool, seed: int, n: nat, rank: nat, world: nat)
    requires world > 0
    ensures Indices(randperm, shuffle, seed, n, rank, world)
      == Stride(Order(randperm, shuffle, seed, n / world * world), rank, world)
  {
    hide Stride, Range;
    RangeIsStride(rank, n / world * world, world);
  }

  /** Index k of a rank's share is entry r + kW of the seed's permutation, or r + kW itself without
      shuffling. */
  lemma IndicesAt(randperm: Shuffler, shuffle: bool, seed: int, n: nat, rank: nat, world: nat)
    requires rank < world && |randperm(seed, n / world * world)| == n / world * world
    ensures var idx := Indices(randperm, shuffle, seed, n, rank, world);
      && |idx| == n / world
      && forall k | 0 <= k < n / world ::
           && 0 <= rank + k * world < n / world * world
           && idx[k] == if shuffle then randperm(seed, n / world * world)[rank + k * world] else rank + k * world
  {
    hide Stride, Indices;
    IndicesAreDealt(randperm, shuffle, seed, n, rank, world);
    StrideAt(Order(randperm, shuffle, seed, n / world * world), rank, world, n / world);
  }

  lemma {:induction false} AllIndicesAreShares(randperm: Shuffler, shuffle: bool, seed: int, n: nat, world: nat,
        ranks: nat)
    requires world > 0
    ensures AllIndices(randperm, shuffle, seed, n, world, ranks)
      == Shares(Order(randperm, shuffle, seed, n / world * world), world, ranks)
  {
    hide Stride, Indices, Order;
    if ranks > 0 {
      AllIndicesAreShares(randperm, shuffle, seed, n, world, ranks - 1);
      IndicesAreDealt(randperm, shuffle, seed, n, ranks - 1, world);
    }
  }

  /** Every rank gets floor(N/W) indices, and together the ranks get each of the indices below
      W * floor(N/W) exactly once. */
  lemma RanksPartition(randperm: Shuffler, shuffle: bool, seed: int, n: nat, world: nat)
    requires world > 0 && Permutes(randperm)
    ensures forall rank | 0 <= rank < world :: |Indices(randperm, shuffle, seed, n, rank, world)| == n / world
    ensures AllIndices(randperm, shuffle, seed, n, world, world) == multiset(Iota(n / world * world))
  {
    hide Indices, Stride, Shares, AllIndices;
    var t := n / world;
    var s := Order(randperm, shuffle, seed, t * world);
    assert multiset(s) == multiset(Iota(t * world));
    assert |s| == |multiset(s)| == |multiset(Iota(t * world))| == t * world;
    forall rank | 0 <= rank < world
      ensures |Indices(randperm, shuffle, seed, n, rank, world)| == n / world
    {
      IndicesAreDealt(randperm, shuffle, seed, n, rank, world);
      StrideAt(s, rank, world, t);
    }
    AllIndicesAreShares(randperm, shuffle, seed, n, world, world);
    SharesAreAll(s, world, t);
  }

  /** No index goes to two ranks. */
  lemma RanksDisjoint(randperm: Shuffler, shuffle: bool, seed: int, n: nat, world: nat, a: nat, b: nat, x: int)
    requires a < b < world && Permutes(randperm)
    ensures !(x in Indices(randperm, shuffle, seed, n, a, world) && x in Indices(randperm, shuffle, seed, n, b, world))
  {
    RanksPartition(randperm, shuffle, seed, n, world);
    TwoRanks(randperm, shuffle, seed, n, world, a, b, x, world);
    IotaOnce(n / world * world, x);
  }

  lemma {:induction false} TwoRanks(randperm: Shuffler, shuffle: bool, seed: int, n: nat, world: nat, a: nat, b: nat,
        x: int, ranks: nat)
    requires a < b && world > 0
    ensures a < ranks && x in Indices(randperm, shuffle, seed, n, a, world) ==>
      AllIndices(randperm, shuffle, seed, n, world, ranks)[x] >= 1
    ensures var ofA := Indices(randperm, shuffle, seed, n, a, world);
      var ofB := Indices(randperm, shuffle, seed, n, b, world);
      b < ranks && x in ofA && x in ofB ==> AllIndices(randperm, shuffle, seed, n, world, ranks)[x] >= 2
  {
    hide Indices;
    if ranks > 0 {
      TwoRanks(randperm, shuffle, seed, n, world, a, b, x, ranks - 1);
      var last := Indices(randperm, shuffle, seed, n, ranks - 1, world);
      assert x in last ==> multiset(last)[x] >= 1;
    }
  }

  lemma {:induction false} IotaOnce(n: nat, x: int)
    ensures multiset(Iota(n))[x] <= 1
    ensures x in Iota(n) ==> 0 <= x < n
  {
    if n > 0 {
      assert Iota(n) == Iota(n - 1) + [n - 1];
      IotaOnce(n - 1, x);
    }
  }

  // ----- the processes

  /** Processes are taken in blocks of `tp`; the process belongs to block `rank` of `world` blocks. */
  predicate InBlock(group: Group, tp: nat, rank: nat, world: nat) {
    match group
    case Alone => rank == 0 && world == 1
    case Group(process, processes) =>
      && tp * rank <= process < tp * rank + tp
      && tp * world <= processes < tp * world + tp
  }

  lemma BlockOf(x: int, tp: nat, q: nat)
    requires tp > 0
    ensures tp * q <= x < tp * q + tp <==> x / tp == q
  {
    if tp * q <= x < tp * q + tp {
      Quotient(x, tp, q, x - tp * q);
    }
    if x / tp == q {
      assert x == x / tp * tp + x % tp;
    }
  }

  /** The block of a process, and the number of blocks, are what the sampler works with. */
  lemma RankIsBlock(group: Group, tp: nat, rank: nat, world: nat)
    requires tp > 0
    ensures InBlock(group, tp, rank, world) <==> rank == Rank(group, tp) && world == WorldSize(group, tp)
  {
    match group
    case Alone =>
    case Group(process, processes) =>
      BlockOf(process, tp, rank);
      BlockOf(processes, tp, world);
  }

  /** With as many processes as blocks times tp, each is in a block, the one it is counted into. */
  lemma ProcessInBlock(tp: nat, world: nat, rank: nat, t: nat)
    requires t < tp && rank < world
    ensures tp * rank + t < tp * world
    ensures InBlock(Group(tp * rank + t, tp * world), tp, rank, world)
  {
    assert tp * world == tp * rank + tp * (world - rank);
    assert tp * (world - rank) >= tp by {
      assert tp * (world - rank - 1) >= 0;
    }
  }

  /** What one process of each of the first `blocks` blocks gets; `pick` says which. */
  ghost function TakenBy(randperm: Shuffler, shuffle: bool, seed: int, n: nat, tp: nat, world: nat, pick: nat -> nat,
        blocks: nat): multiset<int>
    requires tp > 0 && world > 0
    requires forall r: nat :: pick(r) < tp
  {
    if blocks == 0 then multiset{} else
    var group := Group(tp * (blocks - 1) + pick(blocks - 1), tp * world);
    TakenBy(randperm, shuffle, seed, n, tp, world, pick, blocks - 1)
    + if WorldSize(group, tp) == 0 then multiset{}
      else multiset(Indices(randperm, shuffle, seed, n, Rank(group, tp), WorldSize(group, tp)))
  }

  lemma {:induction false} TakenIsDealt(randperm: Shuffler, shuffle: bool, seed: int, n: nat, tp: nat, world: nat,
        pick: nat -> nat, blocks: nat)
    requires tp > 0 && world > 0 && blocks <= world && forall r: nat :: pick(r) < tp
    ensures TakenBy(randperm, shuffle, seed, n, tp, world, pick, blocks)
      == AllIndices(randperm, shuffle, seed, n, world, blocks)
  {
    hide Indices, Rank, WorldSize, InBlock;
    if blocks > 0 {
      TakenIsDealt(randperm, shuffle, seed, n, tp, world, pick, blocks - 1);
      ProcessInBlock(tp, world, blocks - 1, pick(blocks - 1));
      RankIsBlock(Group(tp * (blocks - 1) + pick(blocks - 1), tp * world), tp, blocks - 1, world);
    }
  }

  /** One process out of each block of `tp`, whichever: together they get each of the indices below
      W * floor(N/W) exactly once. */
  lemma ProcessesPartition(randperm: Shuffler, shuffle: bool, seed: int, n: nat, tp: nat, world: nat, pick: nat -> nat)
    requires tp > 0 && world > 0 && Permutes(randperm) && forall r: nat :: pick(r) < tp
    ensures TakenBy(randperm, shuffle, seed, n, tp, world, pick, world) == multiset(Iota(n / world * world))
  {
    hide Permutes, Iota;
    TakenIsDealt(randperm, shuffle, seed, n, tp, world, pick, world);
    RanksPartition(randperm, shuffle, seed, n, world);
  }

  /** Every rank yields the announced number of batches, which depends only on the dataset and the
      settings, so it is the same on all ranks. */
  lemma RankYieldsLen(randperm: Shuffler, shuffle: bool, seed: int, n: nat, rank: nat, world: nat, b: nat,
        dropLast: bool)
    requires rank < world && b > 0 && Permutes(randperm)
    ensures |Batches(Indices(randperm, shuffle, seed, n, rank, world), b, dropLast)|
      == NumBatches(n / world, b, dropLast)
  {
    RanksPartition(randperm, shuffle, seed, n, world);
    BatchesHold(Indices(randperm, shuffle, seed, n, rank, world), b, dropLast);
  }

  /** What the sampler computes for its own rank is what any description of its block gives. */
  lemma BlockYields(randperm: Shuffler, shuffle: bool, seed: int, n: nat, group: Group, tp: nat, b: nat, dropLast: bool)
    requires tp > 0 && b > 0 && WorldSize(group, tp) > 0
    ensures forall rank: nat, world: nat | world > 0 && InBlock(group, tp, rank, world) ::
              && rank == Rank(group, tp) && world == WorldSize(group, tp)
              && (Permutes(randperm) && rank < world ==>
                    |Batches(Indices(randperm, shuffle, seed, n, rank, world), b, dropLast)|
                    == NumBatches(n / world, b, dropLast))
  {
    hide InBlock, Permutes, Indices, Batches, NumBatches;
    forall rank: nat, world: nat | world > 0 && InBlock(group, tp, rank, world)
      ensures rank == Rank(group, tp) && world == WorldSize(group, tp)
      ensures Permutes(randperm) && rank < world ==>
                |Batches(Indices(randperm, shuffle, seed, n, rank, world), b, dropLast)|
                == NumBatches(n / world, b, dropLast)
    {
      RankIsBlock(group, tp, rank, world);
      if Permutes(randperm) && rank < world {
        RankYieldsLen(randperm, shuffle, seed, n, rank, world, b, dropLast);
      }
    }
  }

  class BatchSamplerShard {
    const group: Group
    const tpSize: nat
    const totalSamples: nat
    const batchSize: nat
    const shuffle: bool
    const dropLast: bool
    const baseSeed: int
    var currSeed: int

    ghost predicate Valid()
      reads this
    {
      tpSize > 0 && WorldSize(group, tpSize) > 0 && batchSize > 0
    }

    constructor (g: Group, tp: nat, n: nat, b: nat, shuffled: bool, drop: bool, seed: int)
      requires tp > 0 && WorldSize(g, tp) > 0 && b > 0
      ensures Valid() && group == g && tpSize == tp && batchSize == b && shuffle == shuffled && dropLast == drop
      ensures totalSamples == n / WorldSize(g, tp) && baseSeed == seed && currSeed == seed
    {
      group, tpSize, totalSamples := g, tp, n / WorldSize(g, tp);
      batchSize, shuffle, dropLast := b, shuffled, drop;
      baseSeed, currSeed := seed, seed;
    }

    method SetEpoch(epoch: int)
      modifies this
      ensures currSeed == baseSeed + epoch
    {
      currSeed := baseSeed + epoch;
    }

    /** One pass; as many batches as `Len` announces, of the share of the block that the process is in. */
    method Iter(randperm: Shuffler, ghost n: nat) returns (batches: seq<seq<int>>)
      requires Valid() && totalSamples == n / WorldSize(group, tpSize)
      ensures forall rank: nat, world: nat | world > 0 && InBlock(group, tpSize, rank, world) ::
                && batches == Batches(Indices(randperm, shuffle, currSeed, n, rank, world), batchSize, dropLast)
                && (Permutes(randperm) && rank < world ==> |batches| == Len())
      ensures InBlock(group, tpSize, Rank(group, tpSize), WorldSize(group, tpSize))
    {
      hide Batches, NumBatches, Stride, Range, Rank, WorldSize, Permutes;
      var rank, world := Rank(group, tpSize), WorldSize(group, tpSize);
      var idx;
      if shuffle {
        idx := Stride(randperm(currSeed, totalSamples * world), rank, world);
      } else {
        idx := Range(rank, totalSamples * world, world);
      }
      assert idx == Indices(randperm, shuffle, currSeed, n, rank, world);
      hide Indices;
      batches := [];
      var batch: seq<int> := [];
      assert batch + idx[0..] == idx;
      for i := 0 to |idx|
        invariant |batch| < batchSize && |batch| <= i
        invariant Batches(idx, batchSize, dropLast) == batches + Batches(batch + idx[i..], batchSize, dropLast)
      {
        assert batch + idx[i..] == (batch + [idx[i]]) + idx[i + 1..];
        batch := batch + [idx[i]];
        if |batch| == batchSize {
          FullBatch(batch, idx[i + 1..], batchSize, dropLast);
          assert batches + ([batch] + Batches(idx[i + 1..], batchSize, dropLast))
            == batches + [batch] + Batches(idx[i + 1..], batchSize, dropLast);
          batches := batches + [batch];
          batch := [];
          assert [] + idx[i + 1..] == idx[i + 1..];
        }
      }
      assert batch + idx[|idx|..] == batch;
      LastBatch(batch, batchSize, dropLast);
      if !dropLast && |batch| > 0 {
        batches := batches + [batch];
      }
      hide InBlock;
      RankIsBlock(group, tpSize, rank, world);
      BlockYields(randperm, shuffle, currSeed, n, group, tpSize, batchSize, dropLast);
    }

    function Len(): (r: nat)
      requires Valid()
      reads this
    {
      NumBatches(totalSamples, batchSize, dropLast)
    }
  }

  lemma FullBatch(batch: seq<int>, rest: seq<int>, b: nat, dropLast: bool)
    requires b > 0 && |batch| == b
    ensures Batches(batch + rest, b, dropLast) == [batch] + Batches(rest, b, dropLast)
  {
    assert (batch + rest)[..b] == batch && (batch + rest)[b..] == rest;
  }

  lemma LastBatch(batch: seq<int>, b: nat, dropLast: bool)
    requires |batch| < b
    ensures Batches(batch, b, dropLast) == if dropLast || batch == [] then [] else [batch]
  {
  }
}
