/** Packing a whole dataset: each worker packs its chunk batch by batch and carries the last bin
    over; the main process gathers the messages of all workers from one queue. */
module Packing {
  import opened BinPacking
  import opened Collections

  /** A length column entry: a number, or the lengths of several sequences. */
  datatype Length = One(n: nat) | Many(ns: seq<nat>)

  function Total(ns: seq<nat>): nat {
    if ns == [] then 0 else Total(ns[..|ns| - 1]) + ns[|ns| - 1]
  }

  lemma {:induction false} TotalAdds(a: seq<nat>, b: seq<nat>, n: nat)
    ensures Total(a + b) == Total(a) + Total(b) && Total([n]) == n && Total([]) == 0
  {
    assert [n][..0] == [];
    if b == [] {
      assert a + b == a;
    } else {
      assert (a + b)[..|a + b| - 1] == a + b[..|b| - 1];
      TotalAdds(a, b[..|b| - 1], n);
    }
  }

  function LengthOf(l: Length): nat {
    match l
    case One(n) => n
    case Many(ns) => Total(ns)
  }

  type Bin = seq<Sample<int>>
  type Packer = seq<Sample<int>> -> seq<Bin>

  /** Bins packed from a batch and the number of new samples in it, or the worker's last message. */
  datatype Message = Packed(bins: seq<Bin>, dataLen: nat) | EndOfWork

  /** The samples of one chunk, numbered from offset. */
  function Data(offset: nat, lengths: seq<Length>): (r: seq<Sample<int>>)
    ensures |r| == |lengths|
    ensures forall i | 0 <= i < |r| :: r[i] == Sample(offset + i, LengthOf(lengths[i]))
  {
    seq(|lengths|, i requires 0 <= i < |lengths| => Sample(offset + i, LengthOf(lengths[i])))
  }

  /** A slice that may start or end past the list, as in Python. */
  function Slice<T>(s: seq<T>, lo: nat, hi: nat): seq<T>
    requires lo <= hi
  {
    s[Min(lo, |s|)..Min(hi, |s|)]
  }

  /** One round: what is packed now, and what is carried over. */
  function Round(pack: Packer, batch: nat, data: seq<Sample<int>>, i: nat, carry: Bin): (seq<Bin>, Bin) {
    CalculateMatchedGroup(pack, carry + Slice(data, i, i + batch), i + batch >= |data|)
  }

  /** The messages of a worker from position i on, with a bin carried over. */
  function Work(pack: Packer, batch: nat, data: seq<Sample<int>>, i: nat, carry: Bin): (r: seq<Message>)
    requires batch > 0
    ensures r != [] && r[|r| - 1] == EndOfWork && forall k | 0 <= k < |r| - 1 :: r[k].Packed?
    decreases |data| - Min(i, |data|), |carry|
  {
    if carry + Slice(data, i, i + batch) == [] then [EndOfWork] else
    var (bins, rest) := Round(pack, batch, data, i, carry);
    [Packed(bins, |Slice(data, i, i + batch)|)] + Work(pack, batch, data, i + batch, rest)
  }

  /** All bins among messages, in order. */
  function BinsOf(msgs: seq<Message>): seq<Bin> {
    if msgs == [] then []
    else (if msgs[0].Packed? then msgs[0].bins else []) + BinsOf(msgs[1..])
  }

  function Reported(msgs: seq<Message>): nat {
    if msgs == [] then 0 else (if msgs[0].Packed? then msgs[0].dataLen else 0) + Reported(msgs[1..])
  }

  lemma RoundConserves(pack: Packer, volume: nat, batch: nat, data: seq<Sample<int>>, i: nat, carry: Bin)
    requires batch > 0 && IsPacker(pack, volume)
    ensures var r := Round(pack, batch, data, i, carry);
            && multiset(Flatten(r.0)) + (multiset(r.1) + multiset(data[Min(i + batch, |data|)..]))
               == multiset(carry) + multiset(data[Min(i, |data|)..])
            && (forall b | b in r.0 :: BinOk(b, volume))
  {
    hide CalculateMatchedGroup, Flatten, BinOk, Sum;
    var newData := Slice(data, i, i + batch);
    MatchedGroupConserves(pack, volume, carry + newData, i + batch >= |data|);
    assert Round(pack, batch, data, i, carry) == CalculateMatchedGroup(pack, carry + newData, i + batch >= |data|);
    var r := Round(pack, batch, data, i, carry);
    assert multiset(Flatten(r.0)) + multiset(r.1) == multiset(carry) + multiset(newData);
    var later := data[Min(i + batch, |data|)..];
    assert data[Min(i, |data|)..] == newData + later;
    assert multiset(data[Min(i, |data|)..]) == multiset(newData) + multiset(later);
    assert multiset(carry + newData) == multiset(carry) + multiset(newData);
    Regroup(multiset(Flatten(r.0)), multiset(r.1), multiset(carry), multiset(newData), multiset(later));
  }

  lemma BinsOfCons(m: Message, msgs: seq<Message>)
    requires m.Packed?
    ensures BinsOf([m] + msgs) == m.bins + BinsOf(msgs) && Reported([m] + msgs) == m.dataLen + Reported(msgs)
    ensures Flatten(BinsOf([m] + msgs)) == Flatten(m.bins) + Flatten(BinsOf(msgs))
  {
    assert ([m] + msgs)[1..] == msgs;
    FlattenConcat(m.bins, BinsOf(msgs));
  }

  ghost predicate SendsOut(msgs: seq<Message>, volume: nat, all: multiset<Sample<int>>, count: nat) {
    && multiset(Flatten(BinsOf(msgs))) == all
    && (forall b | b in BinsOf(msgs) :: BinOk(b, volume))
    && Reported(msgs) == count
  }

  lemma SendsOutCons(m: Message, msgs: seq<Message>, volume: nat, all: multiset<Sample<int>>, count: nat)
    requires m.Packed? && SendsOut(msgs, volume, all, count) && forall b | b in m.bins :: BinOk(b, volume)
    ensures SendsOut([m] + msgs, volume, multiset(Flatten(m.bins)) + all, m.dataLen + count)
  {
    BinsOfCons(m, msgs);
  }

  /** A worker sends out its chunk, all of it and nothing else, in bins that fit; the sizes it
      reports add up.  That `Work` is total is the loop's termination despite the bin carried over. */
  lemma {:induction false} WorkConserves(pack: Packer, volume: nat, batch: nat, data: seq<Sample<int>>, i: nat,
        carry: Bin)
    requires batch > 0 && IsPacker(pack, volume)
    ensures SendsOut(Work(pack, batch, data, i, carry), volume,
                     multiset(carry) + multiset(data[Min(i, |data|)..]), |data| - Min(i, |data|))
    decreases |data| - Min(i, |data|), |carry|
  {
    hide SendsOut, IsPacker, Slice;
    if carry + Slice(data, i, i + batch) == [] {
      NothingLeft(data, i, batch, carry, volume);
    } else {
      var (bins, rest) := Round(pack, batch, data, i, carry);
      RoundShrinks(pack, batch, data, i, carry);
      RoundConserves(pack, volume, batch, data, i, carry);
      WorkConserves(pack, volume, batch, data, i + batch, rest);
      SendsOutCons(Packed(bins, |Slice(data, i, i + batch)|), Work(pack, batch, data, i + batch, rest), volume,
                   multiset(rest) + multiset(data[Min(i + batch, |data|)..]), |data| - Min(i + batch, |data|));
    }
  }

  lemma RoundShrinks(pack: Packer, batch: nat, data: seq<Sample<int>>, i: nat, carry: Bin)
    requires batch > 0 && carry + Slice(data, i, i + batch) != []
    ensures |Slice(data, i, i + batch)| == Min(i + batch, |data|) - Min(i, |data|)
    ensures i >= |data| ==> Round(pack, batch, data, i, carry).1 == [] && carry != []
  {
  }

  lemma NothingLeft(data: seq<Sample<int>>, i: nat, batch: nat, carry: Bin, volume: nat)
    requires batch > 0 && carry + Slice(data, i, i + batch) == []
    ensures SendsOut([EndOfWork], volume, multiset(carry) + multiset(data[Min(i, |data|)..]), |data| - Min(i, |data|))
  {
    assert |carry + Slice(data, i, i + batch)| == |carry| + |Slice(data, i, i + batch)|;
    assert data[Min(i, |data|)..] == [] && carry == [];
    assert BinsOf([EndOfWork]) == [];
  }

  // ----- the rounds of a worker

  /** Where batch k starts. */
  function Start(batch: nat, k: nat): nat {
    k * batch
  }

  function BatchAt(batch: nat, data: seq<Sample<int>>, k: nat): Bin {
    Slice(data, Start(batch, k), Start(batch, k) + batch)
  }

  lemma StartNext(batch: nat, k: nat)
    ensures Start(batch, 0) == 0 && Start(batch, k + 1) == Start(batch, k) + batch
  {
  }

  lemma {:induction false} StartGrows(batch: nat, k: nat, m: nat)
    requires k <= m
    ensures Start(batch, k) <= Start(batch, m)
  {
    if k < m {
      StartNext(batch, m - 1);
      StartGrows(batch, k, m - 1);
    }
  }

  /** What is packed in round k: the last bin of the round before, and the next batch. */
  function Input(pack: Packer, batch: nat, data: seq<Sample<int>>, k: nat): Bin {
    if k == 0 then BatchAt(batch, data, k) else
    var bins := pack(Input(pack, batch, data, k - 1));
    (if bins == [] then [] else bins[|bins| - 1]) + BatchAt(batch, data, k)
  }

  /** The message of round k: all bins of the round but the last, which is carried over, and in the
      last round that one too; and the size of the batch. */
  function MessageOf(pack: Packer, batch: nat, data: seq<Sample<int>>, k: nat): Message {
    var bins := pack(Input(pack, batch, data, k));
    Packed(if Start(batch, k + 1) < |data| && bins != [] then bins[..|bins| - 1] else bins, |BatchAt(batch, data, k)|)
  }

  /** One message for each batch of the data from round k on, then the end marker. */
  ghost predicate SendsRounds(pack: Packer, batch: nat, data: seq<Sample<int>>, k: nat, r: seq<Message>) {
    && r != [] && r[|r| - 1] == EndOfWork
    && (forall m: nat | k <= m :: m - k < |r| - 1 <==> Start(batch, m) < |data|)
    && (forall m: nat | k <= m < k + |r| - 1 :: r[m - k] == MessageOf(pack, batch, data, m))
  }

  lemma NoRounds(pack: Packer, batch: nat, data: seq<Sample<int>>, k: nat)
    requires Start(batch, k) >= |data|
    ensures SendsRounds(pack, batch, data, k, [EndOfWork])
  {
    forall m: nat | k <= m
      ensures Start(batch, m) >= |data|
    {
      StartGrows(batch, k, m);
    }
  }

  lemma MoreRounds(pack: Packer, batch: nat, data: seq<Sample<int>>, k: nat, r: seq<Message>)
    requires Start(batch, k) < |data| && SendsRounds(pack, batch, data, k + 1, r)
    ensures SendsRounds(pack, batch, data, k, [MessageOf(pack, batch, data, k)] + r)
  {
    hide MessageOf, Start;
  }

  /** The message of a round, and what the next one packs. */
  lemma RoundIs(pack: Packer, volume: nat, batch: nat, data: seq<Sample<int>>, k: nat, carry: Bin)
    requires batch > 0 && IsPacker(pack, volume) && Start(batch, k) < |data|
    requires carry + BatchAt(batch, data, k) == Input(pack, batch, data, k)
    ensures var newData := BatchAt(batch, data, k);
      var (bins, rest) := CalculateMatchedGroup(pack, carry + newData, Start(batch, k + 1) >= |data|);
      && newData != [] && Packed(bins, |newData|) == MessageOf(pack, batch, data, k)
      && (Start(batch, k + 1) >= |data| ==> rest == [])
      && (Start(batch, k + 1) < |data| ==> rest + BatchAt(batch, data, k + 1) == Input(pack, batch, data, k + 1))
  {
    hide Slice, CalculateMatchedGroup, IsPacker, Flatten, BinOk, Input, MessageOf;
    BatchLength(batch, data, k);
    StartNext(batch, k);
    var last := Start(batch, k + 1) >= |data|;
    var newData := BatchAt(batch, data, k);
    hide BatchAt, Start;
    assert newData != [];
    var (bins, rest) := CalculateMatchedGroup(pack, carry + newData, last);
    MatchedGroupConserves(pack, volume, carry + newData, last);
    assert pack(Input(pack, batch, data, k)) == if last then bins else bins + [rest];
    MessageFrom(pack, batch, data, k, bins, rest);
  }

  lemma MessageFrom(pack: Packer, batch: nat, data: seq<Sample<int>>, k: nat, bins: seq<Bin>, rest: Bin)
    requires pack(Input(pack, batch, data, k)) == if Start(batch, k + 1) >= |data| then bins else bins + [rest]
    ensures Packed(bins, |BatchAt(batch, data, k)|) == MessageOf(pack, batch, data, k)
    ensures Start(batch, k + 1) < |data| ==> rest + BatchAt(batch, data, k + 1) == Input(pack, batch, data, k + 1)
  {
    hide BatchAt, Start;
    var all := pack(Input(pack, batch, data, k));
    if Start(batch, k + 1) < |data| {
      assert all[..|all| - 1] == bins && all[|all| - 1] == rest;
    }
  }

  lemma BatchLength(batch: nat, data: seq<Sample<int>>, k: nat)
    ensures |BatchAt(batch, data, k)| == Min(Start(batch, k) + batch, |data|) - Min(Start(batch, k), |data|)
  {
    hide Start;
  }

  lemma {:induction false} WorkFrom(pack: Packer, volume: nat, batch: nat, data: seq<Sample<int>>, k: nat, carry: Bin)
    requires batch > 0 && IsPacker(pack, volume)
    requires if Start(batch, k) < |data| then carry + BatchAt(batch, data, k) == Input(pack, batch, data, k)
             else carry == []
    ensures SendsRounds(pack, batch, data, k, Work(pack, batch, data, Start(batch, k), carry))
    decreases |data| - Min(Start(batch, k), |data|)
  {
    hide Work, IsPacker, Slice, CalculateMatchedGroup, MessageOf, Input, SendsRounds, Start;
    WorkUnfolds(pack, batch, data, Start(batch, k), carry);
    BatchLength(batch, data, k);
    StartNext(batch, k);
    if Start(batch, k) < |data| {
      var newData := BatchAt(batch, data, k);
      var (bins, rest) := CalculateMatchedGroup(pack, carry + newData, Start(batch, k + 1) >= |data|);
      RoundIs(pack, volume, batch, data, k, carry);
      WorkFrom(pack, volume, batch, data, k + 1, rest);
      MoreRounds(pack, batch, data, k, Work(pack, batch, data, Start(batch, k + 1), rest));
    } else {
      assert carry + BatchAt(batch, data, k) == [];
      NoRounds(pack, batch, data, k);
    }
  }

  /** What a worker sends: for each batch of its chunk one message, with the bins packed from the
      batch and the bin carried over, all but the last bin if more is to come. */
  lemma WorkIsRounds(pack: Packer, volume: nat, batch: nat, data: seq<Sample<int>>)
    requires batch > 0 && IsPacker(pack, volume)
    ensures SendsRounds(pack, batch, data, 0, Work(pack, batch, data, 0, []))
  {
    hide Work, SendsRounds, BatchAt;
    StartNext(batch, 0);
    assert [] + BatchAt(batch, data, 0) == BatchAt(batch, data, 0);
    WorkFrom(pack, volume, batch, data, 0, []);
  }

  /** The worker's loop. */
  method CreatePackedIdx(pack: Packer, batch: nat, offset: nat, lengths: seq<Length>) returns (queue: seq<Message>)
    requires batch > 0
    ensures queue == Work(pack, batch, Data(offset, lengths), 0, [])
  {
    hide Work, CalculateMatchedGroup, Slice, Data, Sends;
    var data := Data(offset, lengths);
    var i := 0;
    var inputData: Bin := [];
    queue := [];
    SendsAll(pack, batch, data);
    while true
      invariant Sends(pack, batch, data, queue, i, inputData)
      decreases |data| - Min(i, |data|), |inputData|
    {
      ghost var queue0, i0, carry0 := queue, i, inputData;
      var newData := Slice(data, i, i + batch);
      inputData := inputData + newData;
      if inputData == [] {
        SendsEnd(pack, batch, data, queue0, i0, carry0);
        break;
      }
      i := i + batch;
      var isFinished := i >= |data|;
      var (sequences, rest) := CalculateMatchedGroup(pack, inputData, isFinished);
      inputData := rest;
      queue := queue + [Packed(sequences, |newData|)];
      RoundShrinks(pack, batch, data, i0, carry0);
      SendsMore(pack, batch, data, queue0, i0, carry0);
    }
    queue := queue + [EndOfWork];
  }

  /** What has been sent, followed by what is still to be sent, is all the worker's messages. */
  ghost predicate Sends(pack: Packer, batch: nat, data: seq<Sample<int>>, queue: seq<Message>, i: nat, carry: Bin)
    requires batch > 0
  {
    queue + Work(pack, batch, data, i, carry) == Work(pack, batch, data, 0, [])
  }

  lemma SendsAll(pack: Packer, batch: nat, data: seq<Sample<int>>)
    requires batch > 0
    ensures Sends(pack, batch, data, [], 0, [])
  {
    hide Work;
  }

  lemma SendsEnd(pack: Packer, batch: nat, data: seq<Sample<int>>, queue: seq<Message>, i: nat, carry: Bin)
    requires batch > 0 && Sends(pack, batch, data, queue, i, carry) && carry + Slice(data, i, i + batch) == []
    ensures queue + [EndOfWork] == Work(pack, batch, data, 0, [])
  {
    hide Work, CalculateMatchedGroup, Slice;
    WorkUnfolds(pack, batch, data, i, carry);
  }

  lemma SendsMore(pack: Packer, batch: nat, data: seq<Sample<int>>, queue: seq<Message>, i: nat, carry: Bin)
    requires batch > 0 && Sends(pack, batch, data, queue, i, carry) && carry + Slice(data, i, i + batch) != []
    ensures var newData := Slice(data, i, i + batch);
            var (bins, rest) := CalculateMatchedGroup(pack, carry + newData, i + batch >= |data|);
            Sends(pack, batch, data, queue + [Packed(bins, |newData|)], i + batch, rest)
  {
    hide Work, CalculateMatchedGroup, Slice;
    var newData := Slice(data, i, i + batch);
    var (bins, rest) := CalculateMatchedGroup(pack, carry + newData, i + batch >= |data|);
    WorkUnfolds(pack, batch, data, i, carry);
    Associates(queue, Packed(bins, |newData|), Work(pack, batch, data, i + batch, rest));
  }

  lemma WorkUnfolds(pack: Packer, batch: nat, data: seq<Sample<int>>, i: nat, carry: Bin)
    requires batch > 0
    ensures var newData := Slice(data, i, i + batch);
            var (bins, rest) := CalculateMatchedGroup(pack, carry + newData, i + batch >= |data|);
            Work(pack, batch, data, i, carry) ==
            if carry + newData == [] then [EndOfWork]
            else [Packed(bins, |newData|)] + Work(pack, batch, data, i + batch, rest)
  {
  }

  lemma Associates(a: seq<Message>, m: Message, b: seq<Message>)
    ensures a + ([m] + b) == a + [m] + b
  {
  }
}
