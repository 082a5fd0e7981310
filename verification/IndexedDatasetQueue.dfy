/** The producer and the writer thread of the indexed dataset builder, and the builder itself. */
module IndexedDatasetQueue {
  import opened Collections
  import opened IndexedDataset
  import opened Wrappers

  /** Queue capacity. */
  const MAX_SIZE := 1000

  class IndexedDatasetBuilder<T(!new)> {
    const pickle: Pickle<T>
    const chunkSize: nat
    var nShard: nat
    var files: map<nat, Bytes>
    var lengthList: seq<int>
    var idxList: seq<nat>
    var shardOffset: seq<nat>
    var queue: seq<Option<seq<T>>>

    function Value(): Writer
      reads this
    {
      Writer(idxList, lengthList, nShard, shardOffset, files)
    }

    constructor (pickle: Pickle<T>, chunkSize: nat, dir: map<nat, Bytes>)
      ensures Value() == NewWriter(dir) && queue == []
      ensures this.pickle == pickle && this.chunkSize == chunkSize
    {
      this.pickle := pickle;
      this.chunkSize := chunkSize;
      nShard := 1;
      files := dir - {0};
      lengthList, idxList, shardOffset, queue := [], [0], [0], [];
      new;
      files := files[0 := []];
      assert files == dir[0 := []];
    }

    /** One round of the worker's loop. */
    method WriteItems(items: seq<T>)
      requires Open(Value())
      modifies this
      ensures Value() == old(WriteBatch(pickle, chunkSize, Value(), items)) && queue == old(queue)
    {
      hide Offsets, Lengths, Joined;
      NothingWritten(pickle, idxList, items);
      var binBuffer: Bytes := [];
      for i := 0 to |items|
        invariant idxList != [] && idxList == Offsets(pickle, old(idxList), items[..i])
        invariant lengthList == old(lengthList) + Lengths(pickle, items[..i])
        invariant binBuffer == Joined(pickle, items[..i])
        invariant nShard == old(nShard) && shardOffset == old(shardOffset) && files == old(files) && queue == old(queue)
      {
        OneWritten(pickle, old(idxList), items, i);
        var itemBuffer := pickle.dumps(items[i]);
        binBuffer := binBuffer + itemBuffer;
        idxList := idxList + [idxList[|idxList| - 1] + |itemBuffer|];
        lengthList := lengthList + [pickle.lengthOf(items[i])];
      }
      assert items[..|items|] == items;
      files := files[nShard - 1 := files[nShard - 1] + binBuffer];
      var offset: int := idxList[|idxList| - 1] as int - shardOffset[|shardOffset| - 1];
      if offset >= chunkSize {
        shardOffset := shardOffset + [idxList[|idxList| - 1]];
        nShard := nShard + 1;
        files := files[nShard - 1 := []];
      }
    }

    /** The writer thread on what is queued, up to the end marker. */
    method WriteWorker()
      requires Open(Value()) && queue != [] && queue[|queue| - 1].None?
      requires forall i | 0 <= i < |queue| - 1 :: queue[i].Some?
      modifies this
      ensures Value() == old(WriteAll(pickle, chunkSize, Value(), Batches(queue))) && queue == []
    {
      hide Batches, WriteAll, WriteBatch;
      ghost var all := queue;
      ghost var n := 0;
      NothingTaken(pickle, chunkSize, Value(), all);
      while queue[0].Some?
        invariant Open(Value()) && n < |all| && queue == all[n..]
        invariant Value() == old(WriteAll(pickle, chunkSize, Value(), Batches(all[..n])))
        decreases |queue|
      {
        var items := queue[0].value;
        queue := queue[1..];
        WriteItems(items);
        OneTaken(pickle, chunkSize, old(Value()), all, n);
        n := n + 1;
      }
      OneTaken(pickle, chunkSize, old(Value()), all, n);
      assert n == |all| - 1 && all[..n + 1] == all;
      queue := queue[1..];
    }
  }

  lemma NothingTaken<T>(p: Pickle<T>, chunk: nat, w: Writer, queue: seq<Option<seq<T>>>)
    requires Open(w)
    ensures WriteAll(p, chunk, w, Batches(queue[..0])) == w
  {
  }

  /** One more message taken off the queue. */
  lemma OneTaken<T>(p: Pickle<T>, chunk: nat, w: Writer, queue: seq<Option<seq<T>>>, n: nat)
    requires Open(w) && n < |queue|
    ensures var before := WriteAll(p, chunk, w, Batches(queue[..n]));
      Open(before) && WriteAll(p, chunk, w, Batches(queue[..n + 1])) ==
      if queue[n].Some? then WriteBatch(p, chunk, before, queue[n].value) else before
  {
    assert queue[..n + 1][..n] == queue[..n];
    BatchesSnoc(queue[..n + 1]);
  }

  lemma NothingWritten<T>(p: Pickle<T>, idx: seq<nat>, items: seq<T>)
    requires idx != []
    ensures Offsets(p, idx, items[..0]) == idx && Lengths(p, items[..0]) == [] && Joined(p, items[..0]) == []
  {
  }

  lemma OneWritten<T>(p: Pickle<T>, idx: seq<nat>, items: seq<T>, i: nat)
    requires idx != [] && i < |items|
    ensures Offsets(p, idx, items[..i + 1])
      == Offsets(p, idx, items[..i]) + [Last(Offsets(p, idx, items[..i])) + |p.dumps(items[i])|]
    ensures Lengths(p, items[..i + 1]) == Lengths(p, items[..i]) + [p.lengthOf(items[i])]
    ensures Joined(p, items[..i + 1]) == Joined(p, items[..i]) + p.dumps(items[i])
  {
    assert items[..i + 1][..i] == items[..i];
  }

  /** The batches among the messages of a queue. */
  function Batches<T>(queue: seq<Option<seq<T>>>): seq<seq<T>> {
    if queue == [] then []
    else Batches(queue[..|queue| - 1]) +
         (if queue[|queue| - 1].Some? then [queue[|queue| - 1].value] else [])
  }

  lemma BatchesSnoc<T>(queue: seq<Option<seq<T>>>)
    requires queue != []
    ensures var b := Batches(queue[..|queue| - 1]);
            if queue[|queue| - 1].None? then Batches(queue) == b
            else Batches(queue) == b + [queue[|queue| - 1].value] && Batches(queue)[..|b|] == b
  {
    if queue[|queue| - 1].None? {
      assert Batches(queue) == Batches(queue[..|queue| - 1]);
    }
  }

  // ----- producer and worker at once

  /** Still to be added, on the queue, written; then the end marker, the join, the index file. */
  datatype Build<T> = Build(
    pending: seq<seq<T>>, queue: seq<Option<seq<T>>>, w: Writer,
    started: bool, ended: bool, stopped: bool, finalized: bool)

  ghost predicate Start<T>(s: Build<T>, dir: map<nat, Bytes>, batches: seq<seq<T>>) {
    s == Build(batches, [], NewWriter(dir), false, false, false, false)
  }

  datatype Step = Add | End | Work | Finish

  /** A step that is not blocked: a put waits while the queue is full, a get while it is empty,
      the join until the worker has stopped. */
  predicate Enabled<T>(s: Build<T>, step: Step) {
    match step
    case Add => s.pending != [] && |s.queue| < MAX_SIZE
    case End => s.pending == [] && s.started && !s.ended && |s.queue| < MAX_SIZE
    case Work => s.started && !s.stopped && s.queue != []
    case Finish => s.pending == [] && !s.finalized && (s.started ==> s.stopped)
  }

  function Next<T>(p: Pickle<T>, chunk: nat, s: Build<T>, step: Step): Build<T>
    requires Enabled(s, step) && Open(s.w)
  {
    match step
    case Add => s.(pending := s.pending[1..], queue := s.queue + [Some(s.pending[0])], started := true)
    case End => s.(queue := s.queue + [None], ended := true)
    case Work =>
      if s.queue[0].None? then s.(queue := s.queue[1..], stopped := true)
      else s.(queue := s.queue[1..], w := WriteBatch(p, chunk, s.w, s.queue[0].value))
    case Finish => s.(finalized := true)
  }

  ghost predicate Reaches<T>(p: Pickle<T>, chunk: nat, s: Build<T>, steps: seq<Step>, t: Build<T>)
    decreases |steps|
  {
    if steps == [] then t == s
    else Enabled(s, steps[0]) && Open(s.w) && Reaches(p, chunk, Next(p, chunk, s, steps[0]), steps[1..], t)
  }

  /** Written, queued and pending batches are the producer's, in order; the end marker is last; the
      queue is never over its capacity. */
  ghost predicate BuildInv<T>(p: Pickle<T>, chunk: nat, s: Build<T>, dir: map<nat, Bytes>, batches: seq<seq<T>>,
        n: nat)
  {
    && n <= |batches|
    && s.w == WriteAll(p, chunk, NewWriter(dir), batches[..n])
    && QueueHolds(s, batches, n)
    && (s.ended ==> s.pending == [] && s.started)
    && (s.stopped ==> s.ended)
    && (s.finalized ==> s.pending == [] && (s.started ==> s.stopped))
    && (!s.started ==> n == 0 && s.queue == [])
    && |s.queue| <= MAX_SIZE
  }

  ghost predicate QueueHolds<T>(s: Build<T>, batches: seq<seq<T>>, n: nat)
    requires n <= |batches|
  {
    var q := |s.queue| - (if s.ended && !s.stopped then 1 else 0);
    && 0 <= q <= |batches| - n
    && (s.stopped ==> q == 0 && n == |batches|)
    && (forall i | 0 <= i < q :: s.queue[i] == Some(batches[n + i]))
    && (s.ended && !s.stopped ==> s.queue[q] == None)
    && s.pending == batches[n + q..]
  }

  /** How many batches a step writes. */
  function Written<T>(s: Build<T>, step: Step): nat {
    if step.Work? && s.queue != [] && s.queue[0].Some? then 1 else 0
  }

  lemma NextQueue<T>(p: Pickle<T>, chunk: nat, s: Build<T>, batches: seq<seq<T>>, n: nat, step: Step)
    requires n <= |batches| && QueueHolds(s, batches, n) && Enabled(s, step) && Open(s.w)
    requires (s.ended ==> s.pending == [] && s.started) && (s.stopped ==> s.ended)
    ensures n + Written(s, step) <= |batches|
    ensures QueueHolds(Next(p, chunk, s, step), batches, n + Written(s, step))
    ensures Written(s, step) == 1 ==> s.queue[0].value == batches[n]
    ensures step.Work? && s.queue[0].None? ==> s.ended
  {
    hide WriteBatch, Open;
  }

  lemma NextInv<T>(p: Pickle<T>, chunk: nat, s: Build<T>, dir: map<nat, Bytes>, batches: seq<seq<T>>, n: nat,
        step: Step)
    requires BuildInv(p, chunk, s, dir, batches, n) && Enabled(s, step)
    ensures Open(s.w) && BuildInv(p, chunk, Next(p, chunk, s, step), dir, batches, n + Written(s, step))
  {
    hide WriteBatch, WriteAll, QueueHolds;
    NextQueue(p, chunk, s, batches, n, step);
    if Written(s, step) == 1 {
      assert batches[..n + 1][..n] == batches[..n];
      WriteAllUnfolds(p, chunk, NewWriter(dir), [], batches[..n + 1]);
    }
  }

  lemma {:induction false} ReachesInv<T>(p: Pickle<T>, chunk: nat, s: Build<T>, steps: seq<Step>, t: Build<T>,
                                        dir: map<nat, Bytes>, batches: seq<seq<T>>, n: nat) returns (m: nat)
    requires BuildInv(p, chunk, s, dir, batches, n) && Reaches(p, chunk, s, steps, t)
    ensures BuildInv(p, chunk, t, dir, batches, m)
    decreases |steps|
  {
    if steps == [] {
      m := n;
    } else {
      NextInv(p, chunk, s, dir, batches, n, steps[0]);
      m := ReachesInv(p, chunk, Next(p, chunk, s, steps[0]), steps[1..], t, dir, batches, n + Written(s, steps[0]));
    }
  }

  /** For every interleaving of producer and worker, every way of batching, every positive chunk
      size and every old directory: what is read back after `finalize` is the list of items. */
  lemma EveryInterleavingReadsBack<T(!new)>(p: Pickle<T>, chunk: nat, dir: map<nat, Bytes>, batches: seq<seq<T>>,
                                     s: Build<T>, steps: seq<Step>, t: Build<T>, r: Reader, index: int)
    requires chunk > 0 && Lossless(p) && Start(s, dir, batches)
    requires Reaches(p, chunk, s, steps, t) && t.finalized && Opens(t.w, r)
    ensures var items := Flatten(batches);
            && WellFormed(r) && Length(r) == |items| == |r.lengths|
            && (forall i | 0 <= i < |items| :: r.lengths[i] == p.lengthOf(items[i]))
            && GetItem(p, r, index) ==
               if 0 <= index < |items| then Ok(items[index])
               else if index >= |items| then Err(IndexOutOfRange)
               else if items == [] then Err(ZeroDivision)
               else Ok(items[index % |items|])
  {
    var n := ReachesInv(p, chunk, s, steps, t, dir, batches, 0);
    assert n == |batches| && batches[..n] == batches;
    NewWriterInv(p, chunk, dir);
    WriteAllInv(p, chunk, NewWriter(dir), [], batches);
    assert [] + Flatten(batches) == Flatten(batches);
    ReadsBack(p, chunk, t.w, Flatten(batches), r, index);
  }

  /** The shards that such a run leaves: each but the last at least a chunk long and as long as its
      offsets say, the last one shorter than a chunk. */
  lemma EveryInterleavingFillsShards<T>(p: Pickle<T>, chunk: nat, dir: map<nat, Bytes>, batches: seq<seq<T>>,
        s: Build<T>, steps: seq<Step>, t: Build<T>)
    requires chunk > 0 && Start(s, dir, batches) && Reaches(p, chunk, s, steps, t)
    ensures Open(t.w)
    ensures forall k: nat | k < t.w.nShard ::
              && k in t.w.files && |t.w.files[k]| == ShardEnd(t.w, k) - t.w.shardOffset[k]
              && (|t.w.files[k]| >= chunk <==> k + 1 < t.w.nShard)
  {
    var n := ReachesInv(p, chunk, s, steps, t, dir, batches, 0);
    NewWriterInv(p, chunk, dir);
    WriteAllInv(p, chunk, NewWriter(dir), [], batches[..n]);
    var items := [] + Flatten(batches[..n]);
    hide Joined, Lengths, WriteAll, Reaches, IndexedDataset.Start;
    forall k: nat | k < t.w.nShard
      ensures k in t.w.files && |t.w.files[k]| == ShardEnd(t.w, k) - t.w.shardOffset[k]
      ensures |t.w.files[k]| >= chunk <==> k + 1 < t.w.nShard
    {
      assert ShardOk(t.w, k, Joined(p, items));
    }
  }

  // ----- nothing blocks for ever

  function Left<T>(s: Build<T>): nat {
    3 * |s.pending| + 2 * |s.queue| + (if s.ended then 0 else 3) + (if s.finalized then 0 else 1)
  }

  /** Before the index file is written some step is enabled, and every step is one of finitely many. */
  lemma NeverStuck<T>(p: Pickle<T>, chunk: nat, s: Build<T>, dir: map<nat, Bytes>, batches: seq<seq<T>>, n: nat)
    requires BuildInv(p, chunk, s, dir, batches, n)
    ensures !s.finalized ==> exists step :: Enabled(s, step)
    ensures forall step | Enabled(s, step) :: Open(s.w) && Left(Next(p, chunk, s, step)) < Left(s)
  {
    if !s.finalized {
      assert Enabled(s, Add) || Enabled(s, End) || Enabled(s, Work) || Enabled(s, Finish);
    }
    forall step | Enabled(s, step)
      ensures Open(s.w) && Left(Next(p, chunk, s, step)) < Left(s)
    {
    }
  }
}
