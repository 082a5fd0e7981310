/** The indexed dataset: a writer that appends serialised items to rolling shard files and keeps
    an offset table, and a reader that finds an item by bisection on the shard offsets. */
module IndexedDataset {
  import opened Collections
  import opened Wrappers

  type Bytes = seq<bv8>

  /** What the source takes from pickle: an item to bytes, and the item's own length field. */
  datatype Pickle<!T> = Pickle(dumps: T -> Bytes, loads: Bytes -> T, lengthOf: T -> int)

  ghost predicate Lossless<T(!new)>(p: Pickle<T>) {
    forall x :: p.loads(p.dumps(x)) == x && p.dumps(x) != []
  }

  /** The builder's fields; `files` is the cache directory, shard number to contents, and may hold
      shards of an older dataset. The open file is shard nShard - 1. */
  datatype Writer = Writer(idx: seq<nat>, lengths: seq<int>, nShard: nat, shardOffset: seq<nat>, files: map<nat, Bytes>)

  function Last(s: seq<nat>): nat
    requires s != []
  {
    s[|s| - 1]
  }

  function Joined<T>(p: Pickle<T>, items: seq<T>): Bytes {
    if items == [] then [] else Joined(p, items[..|items| - 1]) + p.dumps(items[|items| - 1])
  }

  function Offsets<T>(p: Pickle<T>, idx: seq<nat>, items: seq<T>): (r: seq<nat>)
    requires idx != []
    ensures |r| == |idx| + |items|
  {
    if items == [] then idx else
    var r := Offsets(p, idx, items[..|items| - 1]);
    r + [Last(r) + |p.dumps(items[|items| - 1])|]
  }

  function Lengths<T>(p: Pickle<T>, items: seq<T>): seq<int> {
    if items == [] then [] else Lengths(p, items[..|items| - 1]) + [p.lengthOf(items[|items| - 1])]
  }

  /** A new builder drops an old first shard and opens an empty one. */
  function NewWriter(dir: map<nat, Bytes>): Writer {
    Writer([0], [], 1, [0], dir[0 := []])
  }

  predicate Open(w: Writer) {
    w.idx != [] && w.nShard >= 1 && |w.shardOffset| == w.nShard && w.nShard - 1 in w.files
  }

  /** One batch taken off the queue. */
  function WriteBatch<T>(p: Pickle<T>, chunk: nat, w: Writer, items: seq<T>): (w': Writer)
    requires Open(w)
    ensures Open(w')
  {
    var idx := Offsets(p, w.idx, items);
    var lengths := w.lengths + Lengths(p, items);
    var open := w.nShard - 1;
    var files := w.files[open := w.files[open] + Joined(p, items)];
    var offset := Last(idx) - Last(w.shardOffset);
    if offset >= chunk then
      Writer(idx, lengths, w.nShard + 1, w.shardOffset + [Last(idx)], files[w.nShard := []])
    else Writer(idx, lengths, w.nShard, w.shardOffset, files)
  }

  function WriteAll<T>(p: Pickle<T>, chunk: nat, w: Writer, batches: seq<seq<T>>): (w': Writer)
    requires Open(w)
    ensures Open(w')
  {
    if batches == [] then w
    else WriteBatch(p, chunk, WriteAll(p, chunk, w, batches[..|batches| - 1]), batches[|batches| - 1])
  }

  // ----- the reader

  datatype Error = ZeroDivision | IndexOutOfRange | InvalidOffset | EmptyShard

  datatype Reader = Reader(idx: seq<nat>, lengths: seq<int>, shardOffset: seq<nat>, bins: seq<Bytes>)

  /** What `finalize` stores and the dataset's constructor opens. */
  ghost predicate Opens(w: Writer, r: Reader) {
    && r.idx == w.idx && r.lengths == w.lengths && r.shardOffset == w.shardOffset
    && |r.bins| == w.nShard
    && forall s | 0 <= s < w.nShard :: s in w.files && r.bins[s] == w.files[s]
  }

  ghost predicate WellFormed(r: Reader) {
    |r.idx| >= 1 && |r.shardOffset| == |r.bins| >= 1 && r.shardOffset[0] == 0
  }

  ghost predicate Sorted(a: seq<nat>) {
    forall i, j | 0 <= i < j < |a| :: a[i] < a[j]
  }

  /** `bisect.bisect_right` between lo and hi. */
  function BisectRight(a: seq<nat>, x: nat, lo: nat, hi: nat): (r: nat)
    requires lo <= hi <= |a|
    ensures lo <= r <= hi
    ensures Sorted(a) && (forall i | 0 <= i < lo :: a[i] <= x) && (forall i | hi <= i < |a| :: x < a[i]) ==>
              (forall i | 0 <= i < r :: a[i] <= x) && (forall i | r <= i < |a| :: x < a[i])
    decreases hi - lo
  {
    if lo == hi then lo else
    var mid := (lo + hi) / 2;
    if x < a[mid] then BisectRight(a, x, lo, mid) else BisectRight(a, x, mid + 1, hi)
  }

  function ReadBuffer(bin: Bytes, offset: int, size: int): Result<Bytes, Error> {
    if offset < 0 || size < 0 then Err(InvalidOffset)
    else if bin == [] then Err(EmptyShard)
    else if offset + size > |bin| then Err(InvalidOffset)
    else Ok(bin[offset..offset + size])
  }

  /** Whatever the file holds: the bytes asked for if they are all there, and otherwise which of the
      two errors. */
  lemma ReadBufferIs(bin: Bytes, offset: int, size: int)
    ensures var r := ReadBuffer(bin, offset, size);
      && (r == Err(EmptyShard) <==> offset >= 0 && size >= 0 && |bin| == 0)
      && (r == Err(InvalidOffset) <==> offset < 0 || size < 0 || (|bin| > 0 && offset + size > |bin|))
      && (r.Ok? ==> |r.value| == size && forall k | 0 <= k < size :: r.value[k] == bin[offset + k])
  {
  }

  function Length(r: Reader): int {
    |r.idx| - 1
  }

  function GetItem<T>(p: Pickle<T>, r: Reader, index: int): Result<T, Error>
    requires |r.idx| >= 1 && |r.shardOffset| == |r.bins| >= 1 && r.shardOffset[0] == 0
  {
    if index < 0 && Length(r) == 0 then Err(ZeroDivision) else
    var index := if index < 0 then index % Length(r) else index;
    if index + 1 >= |r.idx| then Err(IndexOutOfRange) else
    var idx: int, idxNext: int := r.idx[index], r.idx[index + 1];
    var numShard := BisectRight(r.shardOffset, idx, 0, |r.shardOffset|);
    if numShard == 0 then Err(IndexOutOfRange) else
    var offset := r.shardOffset[numShard - 1];
    var buffer := ReadBuffer(r.bins[numShard - 1], idx - offset, idxNext - idx);
    if buffer.Err? then Err(buffer.error) else Ok(p.loads(buffer.value))
  }

  // ----- the writer's invariant

  /** Where item i starts in the whole byte stream. */
  function Start<T>(p: Pickle<T>, items: seq<T>, i: nat): nat
    requires i <= |items|
  {
    |Joined(p, items[..i])|
  }

  /** Where shard s ends, or the last one ends so far. */
  function ShardEnd(w: Writer, s: nat): nat
    requires w.idx != [] && s < |w.shardOffset|
  {
    if s + 1 < |w.shardOffset| then w.shardOffset[s + 1] else Last(w.idx)
  }

  ghost predicate Inv<T>(p: Pickle<T>, chunk: nat, w: Writer, items: seq<T>) {
    && Open(w)
    && |w.idx| == |items| + 1 && (forall i | 0 <= i <= |items| :: w.idx[i] == Start(p, items, i))
    && w.lengths == Lengths(p, items)
    && w.shardOffset[0] == 0 && Sorted(w.shardOffset) && Last(w.shardOffset) <= Last(w.idx)
    && (forall s | 0 <= s < w.nShard :: w.shardOffset[s] in w.idx)
    && (forall s, t | 0 <= s < t < w.nShard && t == s + 1 :: w.shardOffset[t] - w.shardOffset[s] >= chunk)
    && Last(w.idx) - Last(w.shardOffset) < chunk
    && (forall s: nat | s < w.nShard :: ShardOk(w, s, Joined(p, items)))
  }

  /** Shard s is the stretch of the byte stream from lo to hi. */
  ghost predicate Holds(files: map<nat, Bytes>, s: nat, stream: Bytes, lo: nat, hi: nat) {
    s in files && lo <= hi <= |stream| && files[s] == stream[lo..hi]
  }

  ghost predicate ShardOk(w: Writer, s: nat, stream: Bytes)
    requires Open(w) && s < w.nShard
  {
    Holds(w.files, s, stream, w.shardOffset[s], ShardEnd(w, s))
  }

  lemma {:induction false} JoinedConcat<T>(p: Pickle<T>, a: seq<T>, b: seq<T>)
    ensures Joined(p, a + b) == Joined(p, a) + Joined(p, b)
  {
    if b == [] {
      assert a + b == a;
    } else {
      assert (a + b)[..|a + b| - 1] == a + b[..|b| - 1];
      JoinedConcat(p, a, b[..|b| - 1]);
    }
  }

  lemma {:induction false} LengthsConcat<T>(p: Pickle<T>, a: seq<T>, b: seq<T>)
    ensures Lengths(p, a + b) == Lengths(p, a) + Lengths(p, b)
  {
    if b == [] {
      assert a + b == a;
    } else {
      assert (a + b)[..|a + b| - 1] == a + b[..|b| - 1];
      LengthsConcat(p, a, b[..|b| - 1]);
    }
  }

  /** The offset table of a batch continues that of the items before it. */
  lemma {:induction false} OffsetsExtend<T>(p: Pickle<T>, idx: seq<nat>, items: seq<T>, batch: seq<T>)
    requires |idx| == |items| + 1 && forall i | 0 <= i <= |items| :: idx[i] == Start(p, items, i)
    ensures var all := items + batch;
            var r := Offsets(p, idx, batch);
            |r| == |all| + 1 && idx <= r && forall i | 0 <= i <= |all| :: r[i] == Start(p, all, i)
  {
    var all := items + batch;
    if batch == [] {
      assert all == items;
    } else {
      var n := |batch| - 1;
      var before := items + batch[..n];
      OffsetsExtend(p, idx, items, batch[..n]);
      assert before[..|before|] == before;
      assert all[..|all|] == all == before + [batch[n]];
      assert all[..|all| - 1] == before;
      forall i | 0 <= i < |all|
        ensures Offsets(p, idx, batch)[i] == Start(p, all, i)
      {
        assert all[..i] == before[..i];
      }
    }
  }

  lemma LastOffset<T>(p: Pickle<T>, w: Writer, items: seq<T>)
    requires |w.idx| == |items| + 1 && forall i | 0 <= i <= |items| :: w.idx[i] == Start(p, items, i)
    ensures Last(w.idx) == |Joined(p, items)|
  {
    assert items[..|items|] == items;
  }

  lemma NewWriterInv<T>(p: Pickle<T>, chunk: nat, dir: map<nat, Bytes>)
    requires chunk > 0
    ensures Inv(p, chunk, NewWriter(dir), [])
  {
    var none: seq<T> := [];
    assert none[..0] == [];
  }

  /** The open shard takes the bytes of the batch, the closed ones keep theirs. */
  lemma HoldsMore(files: map<nat, Bytes>, s: nat, stream: Bytes, more: Bytes, lo: nat, hi: nat)
    requires Holds(files, s, stream, lo, hi)
    ensures Holds(files, s, stream + more, lo, hi)
  {
    assert (stream + more)[lo..hi] == stream[lo..hi];
  }

  lemma HoldsAppended(files: map<nat, Bytes>, s: nat, stream: Bytes, more: Bytes, lo: nat)
    requires Holds(files, s, stream, lo, |stream|)
    ensures Holds(files[s := files[s] + more], s, stream + more, lo, |stream + more|)
  {
    assert (stream + more)[lo..|stream + more|] == stream[lo..|stream|] + more;
  }

  lemma ShardsGrow<T>(p: Pickle<T>, chunk: nat, w: Writer, items: seq<T>, more: Bytes, s: nat)
    requires Inv(p, chunk, w, items) && s < w.nShard
    ensures var stream := Joined(p, items) + more;
            var files := w.files[w.nShard - 1 := w.files[w.nShard - 1] + more];
            Holds(files, s, stream, w.shardOffset[s], if s + 1 < w.nShard then w.shardOffset[s + 1] else |stream|)
  {
    LastOffset(p, w, items);
    var stream := Joined(p, items);
    hide Joined, Lengths, Start;
    assert ShardOk(w, s, stream);
    if s + 1 < w.nShard {
      HoldsMore(w.files, s, stream, more, w.shardOffset[s], ShardEnd(w, s));
    } else {
      HoldsAppended(w.files, s, stream, more, w.shardOffset[s]);
    }
  }

  lemma BatchOffsets<T>(p: Pickle<T>, chunk: nat, w: Writer, items: seq<T>, batch: seq<T>)
    requires Inv(p, chunk, w, items)
    ensures var idx := Offsets(p, w.idx, batch);
            && |idx| == |items + batch| + 1 && w.idx <= idx
            && (forall i | 0 <= i <= |items + batch| :: idx[i] == Start(p, items + batch, i))
            && Last(idx) == |Joined(p, items) + Joined(p, batch)| >= Last(w.idx)
    ensures Joined(p, items + batch) == Joined(p, items) + Joined(p, batch)
  {
    hide Joined, Lengths, Offsets, Start;
    OffsetsExtend(p, w.idx, items, batch);
    JoinedConcat(p, items, batch);
    LastOffset(p, w, items);
    LastOffset(p, w.(idx := Offsets(p, w.idx, batch)), items + batch);
  }

  lemma BatchShards<T>(p: Pickle<T>, chunk: nat, w: Writer, items: seq<T>, batch: seq<T>, s: nat)
    requires chunk > 0 && Inv(p, chunk, w, items) && s < WriteBatch(p, chunk, w, batch).nShard
    ensures var w' := WriteBatch(p, chunk, w, batch);
            ShardOk(w', s, Joined(p, items + batch))
  {
    hide Inv, Joined, Lengths, Offsets, Start;
    BatchOffsets(p, chunk, w, items, batch);
    if s < w.nShard {
      ShardsGrow(p, chunk, w, items, Joined(p, batch), s);
    }
  }

  /** A batch keeps the invariant: a shard that is closed is at least a chunk long, and the open one
      is shorter than a chunk, so that the batch that fills it closes it. */
  lemma WriteBatchInv<T>(p: Pickle<T>, chunk: nat, w: Writer, items: seq<T>, batch: seq<T>)
    requires chunk > 0 && Inv(p, chunk, w, items)
    ensures Inv(p, chunk, WriteBatch(p, chunk, w, batch), items + batch)
  {
    hide Offsets, Joined, Lengths, ShardOk, Start;
    forall s: nat | s < WriteBatch(p, chunk, w, batch).nShard
      ensures var w' := WriteBatch(p, chunk, w, batch);
              ShardOk(w', s, Joined(p, items + batch))
    {
      BatchShards(p, chunk, w, items, batch, s);
    }
    BatchOffsets(p, chunk, w, items, batch);
    LengthsConcat(p, items, batch);
    var w' := WriteBatch(p, chunk, w, batch);
    forall s | 0 <= s < w'.nShard
      ensures w'.shardOffset[s] in w'.idx
    {
      assert w'.idx[|w'.idx| - 1] in w'.idx;
      if s < w.nShard {
        var i :| 0 <= i < |w.idx| && w.idx[i] == w.shardOffset[s];
        assert w'.idx[i] == w.idx[i];
      }
    }
  }

  lemma WriteAllUnfolds<T>(p: Pickle<T>, chunk: nat, w: Writer, items: seq<T>, batches: seq<seq<T>>)
    requires Open(w)
    ensures if batches == [] then WriteAll(p, chunk, w, batches) == w && items + Flatten(batches) == items
            else
              var n := |batches| - 1;
              && WriteAll(p, chunk, w, batches) == WriteBatch(p, chunk, WriteAll(p, chunk, w, batches[..n]), batches[n])
              && items + Flatten(batches) == items + Flatten(batches[..n]) + batches[n]
  {
    if batches == [] {
      assert items + [] == items;
    } else {
      var n := |batches| - 1;
      assert items + (Flatten(batches[..n]) + batches[n]) == items + Flatten(batches[..n]) + batches[n];
    }
  }

  lemma {:induction false} WriteAllInv<T>(p: Pickle<T>, chunk: nat, w: Writer, items: seq<T>, batches: seq<seq<T>>)
    requires chunk > 0 && Open(w) && Inv(p, chunk, w, items)
    ensures Inv(p, chunk, WriteAll(p, chunk, w, batches), items + Flatten(batches))
  {
    hide *;
    WriteAllUnfolds(p, chunk, w, items, batches);
    if batches != [] {
      var n := |batches| - 1;
      WriteAllInv(p, chunk, w, items, batches[..n]);
      WriteBatchInv(p, chunk, WriteAll(p, chunk, w, batches[..n]), items + Flatten(batches[..n]), batches[n]);
    }
  }

  // ----- what an older dataset left in the directory

  ghost predicate SameShards(a: Writer, b: Writer) {
    && Open(a) && Open(b) && a == b.(files := a.files)
    && forall s: nat | s < a.nShard && s in a.files && s in b.files :: a.files[s] == b.files[s]
  }

  lemma StaleBatch<T>(p: Pickle<T>, chunk: nat, a: Writer, b: Writer, batch: seq<T>)
    requires SameShards(a, b)
    ensures SameShards(WriteBatch(p, chunk, a, batch), WriteBatch(p, chunk, b, batch))
  {
    hide Joined, Lengths, Offsets;
    assert a.files[a.nShard - 1] == b.files[b.nShard - 1];
  }

  /** Files of an older dataset never reach the result, whatever their numbers and contents. */
  lemma {:induction false} StaleShardsUnread<T>(p: Pickle<T>, chunk: nat, a: Writer, b: Writer, batches: seq<seq<T>>)
    requires Open(a) && Open(b) && SameShards(a, b)
    ensures SameShards(WriteAll(p, chunk, a, batches), WriteAll(p, chunk, b, batches))
  {
    hide *;
    WriteAllUnfolds(p, chunk, a, [], batches);
    WriteAllUnfolds(p, chunk, b, [], batches);
    if batches != [] {
      var n := |batches| - 1;
      StaleShardsUnread(p, chunk, a, b, batches[..n]);
      StaleBatch(p, chunk, WriteAll(p, chunk, a, batches[..n]), WriteAll(p, chunk, b, batches[..n]), batches[n]);
    }
  }

  // ----- reading back

  /** The shard found for item i is the one that holds all of it. */
  lemma FoundShard<T(!new)>(p: Pickle<T>, chunk: nat, w: Writer, items: seq<T>, i: nat)
    requires Inv(p, chunk, w, items) && Lossless(p) && i < |items|
    ensures var n := BisectRight(w.shardOffset, w.idx[i], 0, |w.shardOffset|);
            n > 0 && w.shardOffset[n - 1] <= w.idx[i] < w.idx[i + 1] <= ShardEnd(w, n - 1)
  {
    hide Joined, Lengths, Start, Holds, BisectRight;
    var n := BisectRight(w.shardOffset, w.idx[i], 0, |w.shardOffset|);
    ItemBytes(p, items, i);
    IdxMonotone(p, w, items, i + 1, |items|);
    if n < |w.shardOffset| {
      assert w.shardOffset[n] in w.idx;
      var k :| 0 <= k < |w.idx| && w.idx[k] == w.shardOffset[n];
      assert w.idx[i] < w.idx[k];
      if k <= i {
        IdxMonotone(p, w, items, k, i);
      } else {
        IdxMonotone(p, w, items, i + 1, k);
      }
    }
  }

  lemma {:induction false} IdxMonotone<T>(p: Pickle<T>, w: Writer, items: seq<T>, i: nat, k: nat)
    requires |w.idx| == |items| + 1 && forall i | 0 <= i <= |items| :: w.idx[i] == Start(p, items, i)
    requires i <= k <= |items|
    ensures w.idx[i] <= w.idx[k]
  {
    if i < k {
      IdxMonotone(p, w, items, i, k - 1);
      assert items[..k][..k - 1] == items[..k - 1];
    }
  }

  /** The stretch between two offsets is the item's serialised form. */
  lemma ItemBytes<T>(p: Pickle<T>, items: seq<T>, i: nat)
    requires i < |items|
    ensures Start(p, items, i + 1) == Start(p, items, i) + |p.dumps(items[i])|
    ensures Start(p, items, i + 1) <= |Joined(p, items)|
    ensures Joined(p, items)[Start(p, items, i)..Start(p, items, i + 1)] == p.dumps(items[i])
  {
    assert items[..i + 1][..i] == items[..i];
    assert items == items[..i + 1] + items[i + 1..];
    JoinedConcat(p, items[..i + 1], items[i + 1..]);
  }

  lemma SliceOfSlice(stream: Bytes, lo: nat, hi: nat, a: nat, b: nat)
    requires lo <= a <= b <= hi <= |stream|
    ensures stream[lo..hi][a - lo..b - lo] == stream[a..b]
  {
    var l, r := stream[lo..hi][a - lo..b - lo], stream[a..b];
    forall k | 0 <= k < b - a
      ensures l[k] == r[k]
    {
    }
    assert l == r;
  }

  /** `read_buffer` accepts the stretch of a valid index and returns the item's bytes. */
  lemma ReadsItem<T(!new)>(p: Pickle<T>, chunk: nat, w: Writer, items: seq<T>, r: Reader, i: nat)
    requires Inv(p, chunk, w, items) && Lossless(p) && Opens(w, r) && i < |items|
    ensures |r.idx| == |items| + 1
    ensures var n := BisectRight(r.shardOffset, r.idx[i], 0, |r.shardOffset|);
            && n > 0
            && ReadBuffer(r.bins[n - 1], r.idx[i] as int - r.shardOffset[n - 1], r.idx[i + 1] as int - r.idx[i])
               == Ok(p.dumps(items[i]))
  {
    hide Joined, Lengths, Start, BisectRight;
    FoundShard(p, chunk, w, items, i);
    ItemBytes(p, items, i);
    var s: nat := BisectRight(w.shardOffset, w.idx[i], 0, |w.shardOffset|) - 1;
    assert ShardOk(w, s, Joined(p, items));
    SliceOfSlice(Joined(p, items), w.shardOffset[s], ShardEnd(w, s), w.idx[i], w.idx[i + 1]);
  }

  lemma GetItemWraps<T>(p: Pickle<T>, r: Reader, index: int)
    requires WellFormed(r) && index < 0 < Length(r)
    ensures GetItem(p, r, index) == GetItem(p, r, index % Length(r))
  {
  }

  lemma GetsItem<T(!new)>(p: Pickle<T>, chunk: nat, w: Writer, items: seq<T>, r: Reader, i: nat)
    requires Inv(p, chunk, w, items) && Lossless(p) && Opens(w, r)
    ensures WellFormed(r) && Length(r) == |items|
    ensures GetItem(p, r, i) == if i < |items| then Ok(items[i]) else Err(IndexOutOfRange)
  {
    hide Joined, Lengths, Start, BisectRight, ReadBuffer;
    if i < |items| {
      ReadsItem(p, chunk, w, items, r, i);
    }
  }

  lemma {:induction false} LengthsAt<T>(p: Pickle<T>, items: seq<T>)
    ensures |Lengths(p, items)| == |items|
    ensures forall i | 0 <= i < |items| :: Lengths(p, items)[i] == p.lengthOf(items[i])
  {
    if items != [] {
      LengthsAt(p, items[..|items| - 1]);
    }
  }

  /** The dataset read back agrees with the plain list: its length, every index, the wrap of
      negative indices, the errors of an empty list and of an index past the end, and the column of
      lengths. */
  lemma ReadsBack<T(!new)>(p: Pickle<T>, chunk: nat, w: Writer, items: seq<T>, r: Reader, index: int)
    requires Inv(p, chunk, w, items) && Lossless(p) && Opens(w, r)
    ensures WellFormed(r) && Length(r) == |items| == |r.lengths|
    ensures forall i | 0 <= i < |items| :: r.lengths[i] == p.lengthOf(items[i])
    ensures GetItem(p, r, index) ==
            if 0 <= index < |items| then Ok(items[index])
            else if index >= |items| then Err(IndexOutOfRange)
            else if items == [] then Err(ZeroDivision)
            else Ok(items[index % |items|])
  {
    LengthsAt(p, items);
    assert r.lengths == Lengths(p, items);
    hide Inv, Lengths;
    if index >= 0 {
      GetsItem(p, chunk, w, items, r, index);
    } else if items != [] {
      GetsItem(p, chunk, w, items, r, index % |items|);
      GetItemWraps(p, r, index);
    } else {
      GetsItem(p, chunk, w, items, r, 0);
    }
  }
}
