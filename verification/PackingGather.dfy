/** The main process of the packing: it takes messages off the shared queue in whatever order the
    workers' messages interleave, until every worker has said it is done. */
module PackingGather {
  import opened BinPacking
  import opened Collections
  import opened Packing

  datatype Arrival = Arrival(rank: nat, msg: Message)

  /** The messages of one worker among those that arrived. */
  function OfRank(arrivals: seq<Arrival>, r: nat): seq<Message> {
    if arrivals == [] then [] else
    var last := arrivals[|arrivals| - 1];
    OfRank(arrivals[..|arrivals| - 1], r) + (if last.rank == r then [last.msg] else [])
  }

  /** The order of arrival keeps each worker's own order, and is otherwise arbitrary. */
  ghost predicate Interleaves(arrivals: seq<Arrival>, msgs: seq<seq<Message>>) {
    && (forall k | 0 <= k < |arrivals| :: arrivals[k].rank < |msgs|)
    && (forall r: nat | r < |msgs| :: OfRank(arrivals, r) == msgs[r])
  }

  /** A worker's end marker comes once, last. */
  ghost predicate Stream(msgs: seq<Message>) {
    msgs != [] && msgs[|msgs| - 1].EndOfWork? && forall k | 0 <= k < |msgs| - 1 :: msgs[k].Packed?
  }

  function Indices(bin: Bin): seq<int> {
    seq(|bin|, x requires 0 <= x < |bin| => bin[x].item)
  }

  function IndicesOf(bins: seq<Bin>): (r: seq<seq<int>>)
    ensures |r| == |bins| && forall j | 0 <= j < |bins| :: r[j] == Indices(bins[j])
  {
    seq(|bins|, j requires 0 <= j < |bins| => Indices(bins[j]))
  }

  function SumsOf(bins: seq<Bin>): (r: seq<nat>)
    ensures |r| == |bins| && forall j | 0 <= j < |bins| :: r[j] == Sum(bins[j])
  {
    seq(|bins|, j requires 0 <= j < |bins| => Sum(bins[j]))
  }

  /** The bins of all workers, rank after rank. */
  function AllBins(msgs: seq<seq<Message>>): seq<Bin> {
    if msgs == [] then [] else AllBins(msgs[..|msgs| - 1]) + BinsOf(msgs[|msgs| - 1])
  }

  function AllReported(arrivals: seq<Arrival>): nat {
    if arrivals == [] then 0 else
    var m := arrivals[|arrivals| - 1].msg;
    AllReported(arrivals[..|arrivals| - 1]) + (if m.Packed? then m.dataLen else 0)
  }

  function Ends(arrivals: seq<Arrival>): nat {
    if arrivals == [] then 0
    else Ends(arrivals[..|arrivals| - 1]) + (if arrivals[|arrivals| - 1].msg.EndOfWork? then 1 else 0)
  }

  function EndsIn(msgs: seq<Message>): nat {
    if msgs == [] then 0
    else EndsIn(msgs[..|msgs| - 1]) + (if msgs[|msgs| - 1].EndOfWork? then 1 else 0)
  }

  function EndsUpTo(arrivals: seq<Arrival>, r: nat): nat {
    if r == 0 then 0 else EndsUpTo(arrivals, r - 1) + EndsIn(OfRank(arrivals, r - 1))
  }

  lemma EndsInSnoc(arrivals: seq<Arrival>, a: Arrival, r: nat)
    ensures EndsIn(OfRank(arrivals + [a], r)) ==
            EndsIn(OfRank(arrivals, r)) + (if a.rank == r && a.msg.EndOfWork? then 1 else 0)
  {
    assert (arrivals + [a])[..|arrivals|] == arrivals;
    var before := OfRank(arrivals, r);
    if a.rank == r {
      assert (before + [a.msg])[..|before|] == before;
    } else {
      assert before + [] == before;
    }
  }

  lemma {:induction false} EndsUpToSnoc(arrivals: seq<Arrival>, a: Arrival, r: nat)
    ensures EndsUpTo(arrivals + [a], r) == EndsUpTo(arrivals, r) + (if a.rank < r && a.msg.EndOfWork? then 1 else 0)
  {
    hide OfRank, EndsIn;
    if r > 0 {
      EndsUpToSnoc(arrivals, a, r - 1);
      EndsInSnoc(arrivals, a, r - 1);
    }
  }

  /** Counting end markers on the queue is counting them worker by worker. */
  lemma {:induction false} EndsByRank(arrivals: seq<Arrival>, n: nat)
    requires forall k | 0 <= k < |arrivals| :: arrivals[k].rank < n
    ensures Ends(arrivals) == EndsUpTo(arrivals, n)
  {
    hide EndsUpTo, OfRank, EndsIn;
    if arrivals == [] {
      NoEnds(n);
    } else {
      var k := |arrivals| - 1;
      EndsByRank(arrivals[..k], n);
      EndsUpToSnoc(arrivals[..k], arrivals[k], n);
      assert arrivals == arrivals[..k] + [arrivals[k]];
    }
  }

  lemma {:induction false} NoEnds(n: nat)
    ensures EndsUpTo([], n) == 0
  {
    if n > 0 {
      NoEnds(n - 1);
    }
  }

  /** A prefix of a worker's stream holds its end marker only when it is the whole stream. */
  lemma {:induction false} EndsOfPrefix(msgs: seq<Message>, k: nat)
    requires Stream(msgs) && k <= |msgs|
    ensures EndsIn(msgs[..k]) == if k == |msgs| then 1 else 0
  {
    if k > 0 {
      EndsOfPrefix(msgs, k - 1);
      assert msgs[..k][..k - 1] == msgs[..k - 1];
    }
  }

  lemma PrefixEnds(m: seq<Message>, msgs: seq<Message>)
    requires Stream(msgs) && m <= msgs
    ensures EndsIn(m) == if m == msgs then 1 else 0
  {
    assert m == msgs[..|m|];
    EndsOfPrefix(msgs, |m|);
  }

  lemma {:induction false} OfRankPrefix(arrivals: seq<Arrival>, k: nat, r: nat)
    requires k <= |arrivals|
    ensures OfRank(arrivals[..k], r) <= OfRank(arrivals, r)
    decreases |arrivals|
  {
    if k == |arrivals| {
      assert arrivals[..k] == arrivals;
    } else {
      OfRankPrefix(arrivals[..|arrivals| - 1], k, r);
      assert arrivals[..|arrivals| - 1][..k] == arrivals[..k];
    }
  }

  /** At most one end marker per worker has arrived; all n exactly when all messages have. */
  lemma {:induction false} EndsBound(arrivals: seq<Arrival>, msgs: seq<seq<Message>>, k: nat, r: nat)
    requires Interleaves(arrivals, msgs) && (forall q | 0 <= q < |msgs| :: Stream(msgs[q]))
    requires k <= |arrivals| && r <= |msgs|
    ensures EndsUpTo(arrivals[..k], r) <= r
    ensures EndsUpTo(arrivals[..k], r) == r <==> forall q: nat | q < r :: OfRank(arrivals[..k], q) == msgs[q]
  {
    hide OfRank, EndsIn, Stream;
    if r > 0 {
      var q: nat := r - 1;
      EndsBound(arrivals, msgs, k, q);
      OfRankPrefix(arrivals, k, q);
      PrefixEnds(OfRank(arrivals[..k], q), msgs[q]);
    }
  }

  lemma BinsOfSnoc(msgs: seq<Message>, m: Message)
    ensures BinsOf(msgs + [m]) == BinsOf(msgs) + (if m.Packed? then m.bins else [])
  {
    if msgs == [] {
      assert msgs + [m] == [m];
    } else {
      assert (msgs + [m])[1..] == msgs[1..] + [m];
      BinsOfSnoc(msgs[1..], m);
    }
  }

  lemma NoIndices()
    ensures IndicesOf([]) == [] && SumsOf([]) == []
  {
  }

  lemma IndicesAppend(a: seq<Bin>, b: seq<Bin>)
    ensures IndicesOf(a + b) == IndicesOf(a) + IndicesOf(b)
    ensures SumsOf(a + b) == SumsOf(a) + SumsOf(b)
  {
  }

  lemma {:induction false} ChainIndices(msgs: seq<seq<Message>>, idx: seq<seq<seq<int>>>, sums: seq<seq<nat>>)
    requires |idx| == |sums| == |msgs|
    requires forall r | 0 <= r < |msgs| :: idx[r] == IndicesOf(BinsOf(msgs[r])) && sums[r] == SumsOf(BinsOf(msgs[r]))
    ensures Flatten(idx) == IndicesOf(AllBins(msgs)) && Flatten(sums) == SumsOf(AllBins(msgs))
  {
    hide BinsOf, IndicesOf, SumsOf;
    if msgs == [] {
      NoIndices();
    } else {
      var n := |msgs| - 1;
      ChainIndices(msgs[..n], idx[..n], sums[..n]);
      IndicesAppend(AllBins(msgs[..n]), BinsOf(msgs[n]));
    }
  }

  /** One message of worker a.rank added to what its list holds. */
  lemma Gathered(arrivals: seq<Arrival>, k: nat, r: nat)
    requires k < |arrivals|
    ensures OfRank(arrivals[..k + 1], r) ==
            if arrivals[k].rank == r then OfRank(arrivals[..k], r) + [arrivals[k].msg] else OfRank(arrivals[..k], r)
    ensures BinsOf(OfRank(arrivals[..k + 1], r)) ==
            if arrivals[k].rank == r && arrivals[k].msg.Packed?
            then BinsOf(OfRank(arrivals[..k], r)) + arrivals[k].msg.bins else BinsOf(OfRank(arrivals[..k], r))
    ensures Ends(arrivals[..k + 1]) == Ends(arrivals[..k]) + (if arrivals[k].msg.EndOfWork? then 1 else 0)
    ensures AllReported(arrivals[..k + 1]) ==
            AllReported(arrivals[..k]) + (if arrivals[k].msg.Packed? then arrivals[k].msg.dataLen else 0)
  {
    assert arrivals[..k + 1][..k] == arrivals[..k];
    BinsOfSnoc(OfRank(arrivals[..k], r), arrivals[k].msg);
  }

  class PackingDataset {
    var packedIdx: seq<seq<int>>
    var packedLength: seq<nat>
    var progress: nat

    constructor ()
    {
      packedIdx, packedLength, progress := [], [], 0;
    }

    /** The main process's loop over the messages of n workers: the result does not depend on the
        order of arrival, and the loop takes exactly the messages that were sent. */
    method Gather(n: nat, arrivals: seq<Arrival>, ghost msgs: seq<seq<Message>>)
      requires |msgs| == n && Interleaves(arrivals, msgs)
      requires forall r | 0 <= r < n :: Stream(msgs[r])
      modifies this
      ensures packedIdx == IndicesOf(AllBins(msgs)) && packedLength == SumsOf(AllBins(msgs))
      ensures progress == AllReported(arrivals)
    {
      hide OfRank, Ends, AllReported, Stream, AllBins, Held, Interleaves, IndicesOf, SumsOf, Flatten;
      var idx: seq<seq<seq<int>>> := seq(n, r => []);
      var sums: seq<seq<nat>> := seq(n, r => []);
      var finished, k := 0, 0;
      progress := 0;
      EmptyArrivals(arrivals);
      HeldNothing(arrivals, idx, sums);
      while finished < n
        invariant k <= |arrivals| && |idx| == |sums| == n
        invariant finished == Ends(arrivals[..k]) && progress == AllReported(arrivals[..k])
        invariant Held(arrivals[..k], idx, sums)
        decreases |arrivals| - k
      {
        LoopEnds(arrivals, msgs, k);
        var a := arrivals[k];
        HeldMore(arrivals, k, idx, sums);
        Gathered(arrivals, k, 0);
        k := k + 1;
        if a.msg.EndOfWork? {
          finished := finished + 1;
        } else {
          progress := progress + a.msg.dataLen;
          idx := idx[a.rank := idx[a.rank] + IndicesOf(a.msg.bins)];
          sums := sums[a.rank := sums[a.rank] + SumsOf(a.msg.bins)];
        }
      }
      LoopEnds(arrivals, msgs, k);
      HeldAll(arrivals, msgs, idx, sums);
      packedIdx := Flatten(idx);
      packedLength := Flatten(sums);
    }
  }

  /** The lists of every worker hold the bins it has sent so far. */
  ghost predicate Held(arrived: seq<Arrival>, idx: seq<seq<seq<int>>>, sums: seq<seq<nat>>) {
    |idx| == |sums| && forall r: nat | r < |idx| ::
      idx[r] == IndicesOf(BinsOf(OfRank(arrived, r))) && sums[r] == SumsOf(BinsOf(OfRank(arrived, r)))
  }

  lemma HeldNothing(arrivals: seq<Arrival>, idx: seq<seq<seq<int>>>, sums: seq<seq<nat>>)
    requires |idx| == |sums| && forall r: nat | r < |idx| :: idx[r] == [] && sums[r] == []
    ensures Held(arrivals[..0], idx, sums)
  {
    EmptyArrivals(arrivals);
  }

  lemma HeldMore(arrivals: seq<Arrival>, k: nat, idx: seq<seq<seq<int>>>, sums: seq<seq<nat>>)
    requires k < |arrivals| && Held(arrivals[..k], idx, sums) && arrivals[k].rank < |idx|
    ensures var (a, after) := (arrivals[k], arrivals[..k + 1]);
      if a.msg.EndOfWork? then Held(after, idx, sums)
      else
        Held(after, idx[a.rank := idx[a.rank] + IndicesOf(a.msg.bins)],
             sums[a.rank := sums[a.rank] + SumsOf(a.msg.bins)])
  {
    hide BinsOf, OfRank, IndicesOf, SumsOf;
    NoIndices();
    forall r: nat | r < |idx|
      ensures var more := if arrivals[k].rank == r && arrivals[k].msg.Packed? then arrivals[k].msg.bins else [];
        && IndicesOf(BinsOf(OfRank(arrivals[..k + 1], r))) == idx[r] + (if more == [] then [] else IndicesOf(more))
        && SumsOf(BinsOf(OfRank(arrivals[..k + 1], r))) == sums[r] + (if more == [] then [] else SumsOf(more))
    {
      Gathered(arrivals, k, r);
      if arrivals[k].msg.Packed? {
        IndicesAppend(BinsOf(OfRank(arrivals[..k], r)), arrivals[k].msg.bins);
      }
    }
  }

  lemma HeldAll(arrived: seq<Arrival>, msgs: seq<seq<Message>>, idx: seq<seq<seq<int>>>, sums: seq<seq<nat>>)
    requires |idx| == |msgs| && Held(arrived, idx, sums) && forall q: nat | q < |msgs| :: OfRank(arrived, q) == msgs[q]
    ensures Flatten(idx) == IndicesOf(AllBins(msgs)) && Flatten(sums) == SumsOf(AllBins(msgs))
  {
    hide BinsOf, IndicesOf, SumsOf, AllBins, OfRank;
    ChainIndices(msgs, idx, sums);
  }

  lemma EmptyArrivals(arrivals: seq<Arrival>)
    ensures Ends(arrivals[..0]) == 0 && AllReported(arrivals[..0]) == 0
    ensures forall r: nat {:trigger OfRank(arrivals[..0], r)} :: BinsOf(OfRank(arrivals[..0], r)) == []
  {
    assert arrivals[..0] == [];
  }

  /** Once every worker's stream has arrived whole, nothing is left on the queue. */
  lemma AllTaken(arrivals: seq<Arrival>, msgs: seq<seq<Message>>, k: nat)
    requires Interleaves(arrivals, msgs) && k <= |arrivals|
    requires forall q: nat | q < |msgs| :: OfRank(arrivals[..k], q) == msgs[q]
    ensures k == |arrivals| && arrivals[..k] == arrivals
  {
    hide OfRank, BinsOf, Ends, AllReported;
    if k < |arrivals| {
      var r := arrivals[k].rank;
      Gathered(arrivals, k, r);
      OfRankPrefix(arrivals, k + 1, r);
    }
    assert arrivals[..|arrivals|] == arrivals;
  }

  /** While fewer end markers than workers have arrived there is a message to take; when all have,
      every message has been taken. */
  lemma LoopEnds(arrivals: seq<Arrival>, msgs: seq<seq<Message>>, k: nat)
    requires Interleaves(arrivals, msgs) && (forall q | 0 <= q < |msgs| :: Stream(msgs[q])) && k <= |arrivals|
    ensures Ends(arrivals[..k]) < |msgs| ==> k < |arrivals| && arrivals[k].rank < |msgs|
    ensures Ends(arrivals[..k]) >= |msgs| ==> k == |arrivals| && arrivals[..k] == arrivals
    ensures forall q: nat | q < |msgs| :: OfRank(arrivals, q) == msgs[q]
  {
    hide OfRank, Ends, Stream;
    EndsByRank(arrivals[..k], |msgs|);
    EndsBound(arrivals, msgs, k, |msgs|);
    assert arrivals[..|arrivals|] == arrivals;
    if Ends(arrivals[..k]) >= |msgs| {
      AllTaken(arrivals, msgs, k);
    }
  }

  // ----- the packed dataset

  /** What the workers send for the chunks of the length column: worker r numbers its samples from
      the end of the chunks before. */
  function AllWork(pack: Packer, batch: nat, chunks: seq<seq<Length>>): (r: seq<seq<Message>>)
    requires batch > 0
    ensures |r| == |chunks|
    ensures forall q | 0 <= q < |r| :: Stream(r[q])
  {
    if chunks == [] then [] else
    var n := |chunks| - 1;
    var before := chunks[..n];
    AllWork(pack, batch, before) + [Work(pack, batch, Data(|Flatten(before)|, chunks[n]), 0, [])]
  }

  lemma DataConcat(offset: nat, a: seq<Length>, b: seq<Length>)
    ensures Data(offset, a + b) == Data(offset, a) + Data(offset + |a|, b)
  {
  }

  /** All bins together hold each sample of the dataset once, in bins that fit. */
  lemma {:induction false} AllWorkConserves(pack: Packer, volume: nat, batch: nat, chunks: seq<seq<Length>>)
    requires batch > 0 && IsPacker(pack, volume)
    ensures var bins := AllBins(AllWork(pack, batch, chunks));
            && multiset(Flatten(bins)) == multiset(Data(0, Flatten(chunks)))
            && (forall b | b in bins :: BinOk(b, volume))
  {
    hide Work, BinsOf, BinOk, IsPacker, Flatten, Data, AllWork, AllBins;
    if chunks == [] {
      NoWork(pack, batch);
    } else {
      var n := |chunks| - 1;
      var before := chunks[..n];
      var data := Data(|Flatten(before)|, chunks[n]);
      AllWorkConserves(pack, volume, batch, before);
      WorkConserves(pack, volume, batch, data, 0, []);
      assert data[0..] == data;
      FlattenConcat(AllBins(AllWork(pack, batch, before)), BinsOf(Work(pack, batch, data, 0, [])));
      DataConcat(0, Flatten(before), chunks[n]);
      LastWork(pack, batch, chunks);
    }
  }

  lemma NoWork(pack: Packer, batch: nat)
    requires batch > 0
    ensures Flatten(AllBins(AllWork(pack, batch, []))) == [] && AllBins(AllWork(pack, batch, [])) == []
    ensures Data(0, Flatten([])) == []
  {
    FlattenNone<Sample<int>>();
    DataNone(0);
  }

  lemma LastWork(pack: Packer, batch: nat, chunks: seq<seq<Length>>)
    requires batch > 0 && chunks != []
    ensures var n := |chunks| - 1;
      var before := chunks[..n];
      && Flatten(chunks) == Flatten(before) + chunks[n]
      && AllBins(AllWork(pack, batch, chunks)) ==
         AllBins(AllWork(pack, batch, before)) + BinsOf(Work(pack, batch, Data(|Flatten(before)|, chunks[n]), 0, []))
  {
    hide Work, BinsOf, Data;
    var n := |chunks| - 1;
    assert AllWork(pack, batch, chunks)[..n] == AllWork(pack, batch, chunks[..n]);
  }

  lemma DataNone(start: nat)
    ensures Data(start, []) == []
  {
  }
}
