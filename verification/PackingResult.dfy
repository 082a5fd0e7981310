/** What the packed dataset is, for every interleaving of the workers' messages. */
module PackingResult {
  import opened BinPacking
  import opened Collections
  import opened Packing
  import opened PackingGather

  lemma {:induction false} IndicesOfFlatten(bins: seq<Bin>)
    ensures Flatten(IndicesOf(bins)) == Indices(Flatten(bins))
  {
    if bins != [] {
      var n := |bins| - 1;
      IndicesOfFlatten(bins[..n]);
      assert IndicesOf(bins)[..n] == IndicesOf(bins[..n]);
    }
  }

  lemma RemoveOne<T>(ys: seq<T>, k: nat)
    requires k < |ys|
    ensures multiset(ys) == multiset(Remove(ys, k)) + multiset{ys[k]}
  {
    assert ys == ys[..k] + [ys[k]] + ys[k + 1..];
  }

  lemma IndicesRemove(ys: seq<Sample<int>>, k: nat)
    requires k < |ys|
    ensures Indices(Remove(ys, k)) == Remove(Indices(ys), k)
  {
  }

  lemma Cancel<T>(a: multiset<T>, b: multiset<T>, x: T)
    requires a + multiset{x} == b + multiset{x}
    ensures a == b
  {
    assert a == (a + multiset{x}) - multiset{x};
    assert b == (b + multiset{x}) - multiset{x};
  }

  /** Lists with the same samples have the same indices. */
  lemma {:induction false} IndicesOfPermutation(xs: seq<Sample<int>>, ys: seq<Sample<int>>)
    requires multiset(xs) == multiset(ys)
    ensures multiset(Indices(xs)) == multiset(Indices(ys))
    decreases |xs|
  {
    if xs == [] {
      assert |multiset(ys)| == 0;
      assert ys == [];
    } else {
      assert xs[0] in multiset(xs);
      assert xs[0] in multiset(ys);
      var k :| 0 <= k < |ys| && ys[k] == xs[0];
      hide Indices, Remove;
      RemoveOne(xs, 0);
      RemoveOne(ys, k);
      Cancel(multiset(Remove(xs, 0)), multiset(Remove(ys, k)), xs[0]);
      RemoveShorter(xs, 0);
      IndicesOfPermutation(Remove(xs, 0), Remove(ys, k));
      IndicesRemove(xs, 0);
      IndicesRemove(ys, k);
      IndexAt(xs, 0);
      IndexAt(ys, k);
      RemoveOne(Indices(xs), 0);
      RemoveOne(Indices(ys), k);
    }
  }

  lemma RemoveShorter<T>(ys: seq<T>, k: nat)
    requires k < |ys|
    ensures |Remove(ys, k)| == |ys| - 1
  {
  }

  lemma IndexAt(ys: seq<Sample<int>>, k: nat)
    requires k < |ys|
    ensures |Indices(ys)| == |ys| && Indices(ys)[k] == ys[k].item
  {
  }

  /** The numbers that an entry of the length column stands for. */
  function Parts(l: Length): seq<nat> {
    match l
    case One(n) => [n]
    case Many(ns) => ns
  }

  lemma LengthIsTotal(l: Length)
    ensures LengthOf(l) == Total(Parts(l))
  {
    TotalAdds([], [], if l.One? then l.n else 0);
  }

  /** All numbers that the length column gives the samples of a bin. */
  function AllParts(lengths: seq<Length>, bin: seq<int>): seq<nat>
    requires forall x | 0 <= x < |bin| :: 0 <= bin[x] < |lengths|
  {
    if bin == [] then [] else AllParts(lengths, bin[..|bin| - 1]) + Parts(lengths[bin[|bin| - 1]])
  }

  lemma {:induction false} SumIsTotal(lengths: seq<Length>, bin: Bin)
    requires forall s | s in bin :: 0 <= s.item < |lengths| && s.length == LengthOf(lengths[s.item])
    ensures forall x | 0 <= x < |bin| :: 0 <= Indices(bin)[x] < |lengths|
    ensures Sum(bin) == Total(AllParts(lengths, Indices(bin)))
  {
    hide LengthOf, Parts, Total;
    if bin == [] {
      TotalAdds([], [], 0);
    } else {
      var n := |bin| - 1;
      SumIsTotal(lengths, bin[..n]);
      assert Indices(bin)[..n] == Indices(bin[..n]);
      LengthIsTotal(lengths[bin[n].item]);
      TotalAdds(AllParts(lengths, Indices(bin)[..n]), Parts(lengths[bin[n].item]), 0);
    }
  }

  lemma {:induction false} InFlatten(bins: seq<Bin>, j: nat, s: Sample<int>)
    requires j < |bins| && s in bins[j]
    ensures s in Flatten(bins)
  {
    if j < |bins| - 1 {
      InFlatten(bins[..|bins| - 1], j, s);
    }
  }

  /** Every sample of a bin carries the length of its index. */
  lemma BinSamples(lengths: seq<Length>, bins: seq<Bin>, j: nat)
    requires multiset(Flatten(bins)) == multiset(Data(0, lengths)) && j < |bins|
    ensures forall s | s in bins[j] :: 0 <= s.item < |lengths| && s.length == LengthOf(lengths[s.item])
  {
    forall s | s in bins[j]
      ensures 0 <= s.item < |lengths| && s.length == LengthOf(lengths[s.item])
    {
      InFlatten(bins, j, s);
      assert s in multiset(Flatten(bins));
      assert s in multiset(Data(0, lengths));
    }
  }

  ghost predicate Gathers(d: PackingDataset, pack: Packer, batch: nat, chunks: seq<seq<Length>>, arrivals: seq<Arrival>)
    requires batch > 0
    reads d
  {
    && Interleaves(arrivals, AllWork(pack, batch, chunks))
    && d.packedIdx == IndicesOf(AllBins(AllWork(pack, batch, chunks)))
    && d.packedLength == SumsOf(AllBins(AllWork(pack, batch, chunks)))
    && d.progress == AllReported(arrivals)
  }

  /** Building the dataset in the main process, for one order of arrival. */
  method Build(pack: Packer, batch: nat, chunks: seq<seq<Length>>, arrivals: seq<Arrival>) returns (d: PackingDataset)
    requires batch > 0 && Interleaves(arrivals, AllWork(pack, batch, chunks))
    ensures fresh(d) && Gathers(d, pack, batch, chunks, arrivals)
  {
    d := new PackingDataset();
    d.Gather(|chunks|, arrivals, AllWork(pack, batch, chunks));
  }

  /** A bin's recorded length is the total of its samples' numbers, and fits the volume exactly if
      the total of each sample does. */
  ghost predicate BinRecorded(lengths: seq<Length>, idx: seq<int>, sum: nat, volume: nat) {
    && (forall x | 0 <= x < |idx| :: 0 <= idx[x] < |lengths|)
    && sum == Total(AllParts(lengths, idx))
    && (sum <= volume <==> forall x | 0 <= x < |idx| :: Total(Parts(lengths[idx[x]])) <= volume)
  }

  lemma BinFacts(lengths: seq<Length>, bins: seq<Bin>, volume: nat, j: nat)
    requires multiset(Flatten(bins)) == multiset(Data(0, lengths)) && j < |bins| && BinOk(bins[j], volume)
    ensures BinRecorded(lengths, Indices(bins[j]), Sum(bins[j]), volume)
  {
    BinSamples(lengths, bins, j);
    hide Flatten, Sum, AllParts, Parts, Total, LengthOf, BinOk, Indices, Data;
    var idx := Indices(bins[j]);
    SumIsTotal(lengths, bins[j]);
    FitsVolume(lengths, bins[j], volume);
    forall x | 0 <= x < |idx|
      ensures Total(Parts(lengths[idx[x]])) == LengthOf(lengths[idx[x]])
    {
      LengthIsTotal(lengths[idx[x]]);
    }
  }

  /** However the messages interleave: each index of the dataset is in exactly one bin, once; the
      length recorded for a bin is that of its samples; a bin fits exactly if each of its samples
      does. */
  lemma PackedPartition(pack: Packer, volume: nat, batch: nat, chunks: seq<seq<Length>>)
    requires batch > 0 && IsPacker(pack, volume)
    ensures var lengths := Flatten(chunks);
            var bins := AllBins(AllWork(pack, batch, chunks));
            var idx, sums := IndicesOf(bins), SumsOf(bins);
            && multiset(Flatten(idx)) == multiset(Iota(|lengths|))
            && |sums| == |idx|
            && (forall j | 0 <= j < |idx| :: BinRecorded(lengths, idx[j], sums[j], volume))
  {
    hide AllBins, AllWork, Flatten, IsPacker, BinRecorded, BinOk, Sum;
    var lengths := Flatten(chunks);
    var bins := AllBins(AllWork(pack, batch, chunks));
    AllWorkConserves(pack, volume, batch, chunks);
    IndicesOfFlatten(bins);
    IndicesOfPermutation(Flatten(bins), Data(0, lengths));
    assert Indices(Data(0, lengths)) == Iota(|lengths|);
    forall j | 0 <= j < |bins|
      ensures BinRecorded(lengths, Indices(bins[j]), Sum(bins[j]), volume)
    {
      BinFacts(lengths, bins, volume, j);
    }
  }

  lemma FitsVolume(lengths: seq<Length>, bin: Bin, volume: nat)
    requires BinOk(bin, volume)
    requires forall s | s in bin :: 0 <= s.item < |lengths| && s.length == LengthOf(lengths[s.item])
    ensures forall x | 0 <= x < |bin| :: 0 <= Indices(bin)[x] < |lengths|
    ensures Sum(bin) <= volume <==> forall x | 0 <= x < |bin| :: LengthOf(lengths[Indices(bin)[x]]) <= volume
  {
    hide Sum;
    forall x | 0 <= x < |bin|
      ensures bin[x].length <= Sum(bin) && bin[x].length == LengthOf(lengths[Indices(bin)[x]])
    {
      assert bin[x] in bin;
      LengthInSum(bin, x);
    }
    if |bin| == 1 {
      OneInSum(bin);
    }
  }

  lemma {:induction false} LengthInSum(bin: Bin, x: nat)
    requires x < |bin|
    ensures bin[x].length <= Sum(bin)
  {
    if x < |bin| - 1 {
      LengthInSum(bin[..|bin| - 1], x);
    }
  }

  lemma OneInSum(bin: Bin)
    requires |bin| == 1
    ensures Sum(bin) == bin[0].length
  {
    assert bin[..0] == [];
  }

  // ----- a column of numbers, and a column of lists

  function Numbers(ns: seq<nat>): (r: seq<Length>)
    ensures |r| == |ns| && forall i | 0 <= i < |r| :: r[i] == One(ns[i])
  {
    seq(|ns|, i requires 0 <= i < |ns| => One(ns[i]))
  }

  function Lists(nss: seq<seq<nat>>): (r: seq<Length>)
    ensures |r| == |nss| && forall i | 0 <= i < |r| :: r[i] == Many(nss[i])
  {
    seq(|nss|, i requires 0 <= i < |nss| => Many(nss[i]))
  }

  /** The entries at the places that a bin lists. */
  function Picked<T>(column: seq<T>, bin: seq<int>): (r: seq<T>)
    requires forall x | 0 <= x < |bin| :: 0 <= bin[x] < |column|
    ensures |r| == |bin| && forall x | 0 <= x < |r| :: r[x] == column[bin[x]]
  {
    seq(|bin|, x requires 0 <= x < |bin| => column[bin[x]])
  }

  lemma {:induction false} PartsOfNumbers(ns: seq<nat>, bin: seq<int>)
    requires forall x | 0 <= x < |bin| :: 0 <= bin[x] < |ns|
    ensures AllParts(Numbers(ns), bin) == Picked(ns, bin)
  {
    hide Numbers, Picked;
    if bin != [] {
      var n := |bin| - 1;
      PartsOfNumbers(ns, bin[..n]);
      assert Picked(ns, bin) == Picked(ns, bin[..n]) + [ns[bin[n]]];
    }
  }

  lemma {:induction false} PartsOfLists(nss: seq<seq<nat>>, bin: seq<int>)
    requires forall x | 0 <= x < |bin| :: 0 <= bin[x] < |nss|
    ensures AllParts(Lists(nss), bin) == Flatten(Picked(nss, bin))
  {
    if bin != [] {
      var n := |bin| - 1;
      PartsOfLists(nss, bin[..n]);
      assert Picked(nss, bin)[..n] == Picked(nss, bin[..n]);
    }
  }

  /** The bin lists places of the column, and `sum` is the total of the numbers there; it is at most
      the volume exactly if each of them is. */
  ghost predicate SumsNumbers(ns: seq<nat>, idx: seq<int>, sum: nat, volume: nat) {
    && (forall x | 0 <= x < |idx| :: 0 <= idx[x] < |ns|)
    && sum == Total(Picked(ns, idx))
    && (sum <= volume <==> forall x | 0 <= x < |idx| :: ns[idx[x]] <= volume)
  }

  ghost predicate SumsLists(nss: seq<seq<nat>>, idx: seq<int>, sum: nat, volume: nat) {
    && (forall x | 0 <= x < |idx| :: 0 <= idx[x] < |nss|)
    && sum == Total(Flatten(Picked(nss, idx)))
    && (sum <= volume <==> forall x | 0 <= x < |idx| :: Total(nss[idx[x]]) <= volume)
  }

  lemma RecordedNumbers(ns: seq<nat>, idx: seq<int>, sum: nat, volume: nat)
    requires BinRecorded(Numbers(ns), idx, sum, volume)
    ensures SumsNumbers(ns, idx, sum, volume)
  {
    PartsOfNumbers(ns, idx);
    hide AllParts, Parts, Total;
    forall x | 0 <= x < |idx|
      ensures Total(Parts(Numbers(ns)[idx[x]])) == ns[idx[x]]
    {
      PartOfNumber(ns[idx[x]]);
    }
  }

  lemma PartOfNumber(n: nat)
    ensures Total(Parts(One(n))) == n
  {
    TotalAdds([], [], n);
  }

  lemma RecordedLists(nss: seq<seq<nat>>, idx: seq<int>, sum: nat, volume: nat)
    requires BinRecorded(Lists(nss), idx, sum, volume)
    ensures SumsLists(nss, idx, sum, volume)
  {
    PartsOfLists(nss, idx);
    hide AllParts, Total, Flatten;
    forall x | 0 <= x < |idx|
      ensures Total(Parts(Lists(nss)[idx[x]])) == Total(nss[idx[x]])
    {
    }
  }

  /** A column of plain numbers: the length recorded for a bin is the sum of the numbers at its
      indices, and is at most the volume exactly if each of them is. */
  lemma PackedNumbers(pack: Packer, volume: nat, batch: nat, chunks: seq<seq<Length>>, ns: seq<nat>)
    requires batch > 0 && IsPacker(pack, volume) && Flatten(chunks) == Numbers(ns)
    ensures var bins := AllBins(AllWork(pack, batch, chunks));
            var idx, sums := IndicesOf(bins), SumsOf(bins);
            |sums| == |idx| && forall j | 0 <= j < |idx| :: SumsNumbers(ns, idx[j], sums[j], volume)
  {
    hide *;
    PackedPartition(pack, volume, batch, chunks);
    var bins := AllBins(AllWork(pack, batch, chunks));
    forall j | 0 <= j < |bins|
      ensures SumsNumbers(ns, IndicesOf(bins)[j], SumsOf(bins)[j], volume)
    {
      RecordedNumbers(ns, IndicesOf(bins)[j], SumsOf(bins)[j], volume);
    }
  }

  /** A column of lists: the length recorded for a bin is the total of all lists at its indices, and
      is at most the volume exactly if the total of each of them is. */
  lemma PackedLists(pack: Packer, volume: nat, batch: nat, chunks: seq<seq<Length>>, nss: seq<seq<nat>>)
    requires batch > 0 && IsPacker(pack, volume) && Flatten(chunks) == Lists(nss)
    ensures var bins := AllBins(AllWork(pack, batch, chunks));
            var idx, sums := IndicesOf(bins), SumsOf(bins);
            |sums| == |idx| && forall j | 0 <= j < |idx| :: SumsLists(nss, idx[j], sums[j], volume)
  {
    hide *;
    PackedPartition(pack, volume, batch, chunks);
    var bins := AllBins(AllWork(pack, batch, chunks));
    forall j | 0 <= j < |bins|
      ensures SumsLists(nss, IndicesOf(bins)[j], SumsOf(bins)[j], volume)
    {
      RecordedLists(nss, IndicesOf(bins)[j], SumsOf(bins)[j], volume);
    }
  }

  // ----- the progress reported

  function ReportedUpTo(arrivals: seq<Arrival>, r: nat): nat {
    if r == 0 then 0 else ReportedUpTo(arrivals, r - 1) + Reported(OfRank(arrivals, r - 1))
  }

  lemma {:induction false} ReportedSnoc(msgs: seq<Message>, m: Message)
    ensures Reported(msgs + [m]) == Reported(msgs) + (if m.Packed? then m.dataLen else 0)
  {
    if msgs == [] {
      assert msgs + [m] == [m];
    } else {
      assert (msgs + [m])[1..] == msgs[1..] + [m];
      ReportedSnoc(msgs[1..], m);
    }
  }

  lemma {:induction false} ReportedUpToSnoc(arrivals: seq<Arrival>, a: Arrival, r: nat)
    ensures ReportedUpTo(arrivals + [a], r) ==
            ReportedUpTo(arrivals, r) + (if a.rank < r && a.msg.Packed? then a.msg.dataLen else 0)
  {
    if r > 0 {
      ReportedUpToSnoc(arrivals, a, r - 1);
      assert (arrivals + [a])[..|arrivals|] == arrivals;
      ReportedSnoc(OfRank(arrivals, r - 1), a.msg);
      assert OfRank(arrivals, r - 1) + [] == OfRank(arrivals, r - 1);
    }
  }

  lemma {:induction false} ReportedByRank(arrivals: seq<Arrival>, n: nat)
    requires forall k | 0 <= k < |arrivals| :: arrivals[k].rank < n
    ensures AllReported(arrivals) == ReportedUpTo(arrivals, n)
  {
    if arrivals == [] {
      NothingReported(n);
    } else {
      var k := |arrivals| - 1;
      ReportedByRank(arrivals[..k], n);
      ReportedUpToSnoc(arrivals[..k], arrivals[k], n);
      assert arrivals == arrivals[..k] + [arrivals[k]];
    }
  }

  lemma {:induction false} NothingReported(n: nat)
    ensures ReportedUpTo([], n) == 0
  {
    if n > 0 {
      NothingReported(n - 1);
    }
  }

  lemma {:induction false} ReportedWork(pack: Packer, volume: nat, batch: nat, chunks: seq<seq<Length>>,
        arrivals: seq<Arrival>, r: nat)
    requires batch > 0 && IsPacker(pack, volume) && r <= |chunks|
    requires forall q: nat | q < r :: OfRank(arrivals, q) == AllWork(pack, batch, chunks)[q]
    ensures ReportedUpTo(arrivals, r) == |Flatten(chunks[..r])|
  {
    hide Work, IsPacker, OfRank, Reported, SendsOut;
    if r > 0 {
      ReportedWork(pack, volume, batch, chunks, arrivals, r - 1);
      assert chunks[..r][..r - 1] == chunks[..r - 1];
      WorkOfRank(pack, batch, chunks, r - 1);
      var data := Data(|Flatten(chunks[..r - 1])|, chunks[r - 1]);
      ReportsAll(pack, volume, batch, data);
    }
  }

  lemma ReportsAll(pack: Packer, volume: nat, batch: nat, data: seq<Sample<int>>)
    requires batch > 0 && IsPacker(pack, volume)
    ensures Reported(Work(pack, batch, data, 0, [])) == |data|
  {
    WorkConserves(pack, volume, batch, data, 0, []);
  }

  lemma {:induction false} WorkOfRank(pack: Packer, batch: nat, chunks: seq<seq<Length>>, r: nat)
    requires batch > 0 && r < |chunks|
    ensures AllWork(pack, batch, chunks)[r] == Work(pack, batch, Data(|Flatten(chunks[..r])|, chunks[r]), 0, [])
  {
    hide Work;
    var n := |chunks| - 1;
    if r < n {
      WorkOfRank(pack, batch, chunks[..n], r);
      assert chunks[..n][..r] == chunks[..r];
    }
  }

  /** The progress bar reaches the size of the dataset. */
  lemma ProgressIsComplete(pack: Packer, volume: nat, batch: nat, chunks: seq<seq<Length>>, arrivals: seq<Arrival>)
    requires batch > 0 && IsPacker(pack, volume) && Interleaves(arrivals, AllWork(pack, batch, chunks))
    ensures AllReported(arrivals) == |Flatten(chunks)|
  {
    hide Work, IsPacker, OfRank, AllReported;
    ReportedByRank(arrivals, |chunks|);
    ReportedWork(pack, volume, batch, chunks, arrivals, |chunks|);
    assert chunks[..|chunks|] == chunks;
  }
}
