/** What holds of the asynchronous handler at every point of an iteration, and that each step
    keeps it: a closed form of every field, without assuming that keys identify contents. */
module OffloadInvariant {
  import opened OffloadHandler
  import opened OffloadSchedule
  import opened Tensors
  import WindowMap
  import opened Wrappers

  /** The tensors of a layer that get a tag, in push order. */
  function Stored(xs: seq<Saved>): seq<Tensor> {
    if xs == [] then []
    else Stored(xs[..|xs| - 1]) + (if xs[|xs| - 1].Kept() then [xs[|xs| - 1].tensor] else [])
  }

  function IdOf(j: Job, p: Pos): Ident
    requires p.g < |j.program| && p.i < |j.program[p.g]|
  {
    var s := j.program[p.g][p.i];
    if s.Kept() then Tagged(Tag(p.g, |Stored(j.program[p.g][..p.i])|)) else Direct(s.tensor)
  }

  ghost predicate IsTag(j: Job, t: Tag) {
    t.group < |j.program| && t.count < |Stored(j.program[t.group])|
  }

  function TensorAt(j: Job, t: Tag): Tensor
    requires t.group < |j.program| && t.count < |Stored(j.program[t.group])|
  {
    Stored(j.program[t.group])[t.count]
  }

  /** For each key the first tensor that has it. */
  function FirstMap(ts: seq<Tensor>): (m: map<Key, Tensor>)
    ensures forall x | 0 <= x < |ts| :: ts[x].KeyOf() in m
    ensures forall k | k in m :: m[k].KeyOf() == k && m[k] in ts
    ensures ts != [] ==> m[ts[0].KeyOf()] == ts[0]
  {
    if ts == [] then map[] else
    var m := FirstMap(ts[..|ts| - 1]);
    var t := ts[|ts| - 1];
    assert ts == ts[..|ts| - 1] + [t];
    if t.KeyOf() in m then m else m[t.KeyOf() := t]
  }

  /** Views of the first copy under each key have the sizes asked for. */
  ghost predicate Fits(ts: seq<Tensor>) {
    forall x | 0 <= x < |ts| :: Numel(ts[x].shape) == |FirstMap(ts)[ts[x].KeyOf()].data|
  }

  /** The groups that a bulk offload really moves: it comes after the pushes of the group. */
  ghost predicate Offloads(c: Config, q: nat) {
    q < c.groups && (q == 0 || c.groups < c.layers)
  }

  /** Group q was bulk-offloaded by one of the first g commits. */
  ghost predicate Called(c: Config, q: nat, g: nat)
    requires WindowMap.Good(c.groups, c.layers, c.window)
  {
    q < c.groups && if q == 0 then g >= 1 else c.window[q - 1] < g
  }

  ghost function ForwardSlot(c: Config, j: Job, t: Tag, g: nat): Slot
    requires IsTag(j, t) && WindowMap.Good(c.groups, c.layers, c.window)
  {
    var x := TensorAt(j, t);
    if Offloads(c, t.group) && Called(c, t.group, g) then Moved(x.KeyOf(), x.shape) else OnDevice(x)
  }

  /** What a reload puts back for a tag: the first copy under its key, in its own shape. */
  ghost function Returned(j: Job, t: Tag): Tensor
    requires IsTag(j, t)
  {
    var x := TensorAt(j, t);
    Tensor(FRESH, x.dtype, x.shape, FirstMap(Stored(j.program[t.group]))[x.KeyOf()].data)
  }

  /** The slot of a tag that is still there when layer g is the current one on the way back. */
  ghost function BackwardSlot(c: Config, j: Job, t: Tag, g: nat): Slot
    requires IsTag(j, t) && WindowMap.Good(c.groups, c.layers, c.window)
  {
    var x := TensorAt(j, t);
    if !Offloads(c, t.group) then OnDevice(x)
    else if c.window[t.group] < g then Moved(x.KeyOf(), x.shape)
    else OnDevice(Returned(j, t))
  }

  ghost function GroupCopies(c: Config, j: Job, q: nat): map<Key, CpuCopy>
    requires q < |j.program|
  {
    if Offloads(c, q) then Copies(FirstMap(Stored(j.program[q]))) else map[]
  }

  function GroupTags(g: nat, n: nat): (r: seq<Tag>)
    ensures |r| == n && forall x | 0 <= x < n :: r[x] == Tag(g, x)
  {
    seq(n, x requires 0 <= x < n => Tag(g, x))
  }

  function TagsUpTo(j: Job, g: nat): seq<Tag>
    requires g <= |j.program|
  {
    if g == 0 then [] else TagsUpTo(j, g - 1) + GroupTags(g - 1, |Stored(j.program[g - 1])|)
  }

  ghost predicate Pushed(j: Job, g: nat, n: nat, t: Tag) {
    IsTag(j, t) && (t.group < g || (t.group == g && t.count < n))
  }

  // The parts of the forward invariant: g groups committed, n tags of the next group pushed.

  ghost predicate ForwardState(c: Config, j: Job, state: map<Tag, Slot>, g: nat, n: nat)
    requires WindowMap.Good(c.groups, c.layers, c.window)
  {
    && (forall t :: t in state <==> Pushed(j, g, n, t))
    && (forall t | t in state :: state[t] == ForwardSlot(c, j, t, g))
  }

  ghost predicate ForwardBuf(c: Config, j: Job, buf: map<Tag, Option<Tensor>>, g: nat, n: nat)
    requires WindowMap.Good(c.groups, c.layers, c.window)
  {
    && (forall t :: t in buf <==> Pushed(j, g, n, t) && t.group < c.groups)
    && (forall t | t in buf :: buf[t] == if c.window[t.group] < g then None else Some(TensorAt(j, t)))
  }

  ghost predicate ForwardDone(c: Config, done: nat, g: nat)
    requires WindowMap.Good(c.groups, c.layers, c.window)
  {
    done <= c.groups && forall q: nat | q < c.groups :: c.window[q] < g <==> q < done
  }

  ghost predicate ForwardMapping(c: Config, j: Job, mapping: map<nat, map<Key, CpuCopy>>, g: nat)
    requires j.Valid() && j.Settings(c)
  {
    && (forall q: nat :: q in mapping <==> Called(c, q, g))
    && (forall q: nat | q in mapping :: mapping[q] == GroupCopies(c, j, q))
  }

  ghost predicate ForwardInv(c: Config, j: Job, h: Handler, g: nat, i: nat)
    requires j.Valid() && j.Settings(c) && j.InRange(Forward(g, i))
  {
    var n := if g < |j.program| then |Stored(j.program[g][..i])| else 0;
    && h.group == g && h.count == n
    && h.order == TagsUpTo(j, g) + GroupTags(g, n)
    && ForwardState(c, j, h.state, g, n)
    && ForwardBuf(c, j, h.buf, g, n)
    && ForwardDone(c, h.done, g)
    && ForwardMapping(c, j, h.mapping, g)
  }

  // The parts of the backward invariant: layer g is the current one.

  ghost predicate BackwardState(c: Config, j: Job, state: map<Tag, Slot>, g: nat, popped: set<Tag>)
    requires WindowMap.Good(c.groups, c.layers, c.window)
  {
    && (forall t :: t in state <==> IsTag(j, t) && t !in popped)
    && (forall t | t in state :: state[t] == BackwardSlot(c, j, t, g))
  }

  ghost predicate BackwardBuf(c: Config, j: Job, buf: map<Tag, Option<Tensor>>, popped: set<Tag>) {
    && (forall t :: t in buf <==> IsTag(j, t) && t !in popped && t.group < c.groups)
    && (forall t | t in buf :: buf[t] == None)
  }

  ghost predicate BackwardDone(c: Config, done: nat, g: nat)
    requires WindowMap.Good(c.groups, c.layers, c.window)
  {
    && (g == 0 ==> done == 0)
    && (g > 0 ==> 1 <= done <= c.groups && forall q: nat | 1 <= q < c.groups :: c.window[q] < g <==> q < done)
  }

  ghost predicate BackwardMapping(c: Config, j: Job, mapping: map<nat, map<Key, CpuCopy>>, g: nat)
    requires j.Valid() && j.Settings(c)
  {
    && (forall q: nat :: q in mapping <==> q < c.groups && c.window[q] < g)
    && (forall q: nat | q in mapping :: mapping[q] == GroupCopies(c, j, q))
  }

  ghost predicate BackwardInv(c: Config, j: Job, h: Handler, g: nat, popped: set<Tag>)
    requires j.Valid() && j.Settings(c) && g <= |j.program|
  {
    && h.group == g && h.count == 0
    && (forall t :: t in h.order <==> t in h.state)
    && (forall t | t in popped :: t.group >= g)
    && BackwardState(c, j, h.state, g, popped)
    && BackwardBuf(c, j, h.buf, popped)
    && BackwardDone(c, h.done, g)
    && BackwardMapping(c, j, h.mapping, g)
  }

  // ----- tags and insertion order

  lemma {:induction false} StoredGrows(xs: seq<Saved>, i: nat)
    requires i < |xs|
    ensures Stored(xs[..i + 1]) == Stored(xs[..i]) + (if xs[i].Kept() then [xs[i].tensor] else [])
    ensures Stored(xs[..i + 1]) <= Stored(xs)
    decreases |xs| - i
  {
    assert xs[..i + 1][..i] == xs[..i];
    if i + 1 < |xs| {
      StoredGrows(xs, i + 1);
    } else {
      assert xs[..i + 1] == xs;
    }
  }

  lemma StoredPrefix(xs: seq<Saved>, i: nat)
    requires i <= |xs|
    ensures Stored(xs[..i]) <= Stored(xs)
  {
    if i == |xs| {
      assert xs[..i] == xs;
    } else {
      StoredGrows(xs, i);
    }
  }

  lemma {:induction false} StoredWellFormed(xs: seq<Saved>)
    requires forall i | 0 <= i < |xs| :: xs[i].tensor.WellFormed()
    ensures forall x | 0 <= x < |Stored(xs)| :: Stored(xs)[x].WellFormed()
  {
    if xs != [] {
      StoredWellFormed(xs[..|xs| - 1]);
    }
  }

  /** The identifier of a kept tensor is the tag of that tensor. */
  lemma IdIsTag(j: Job, p: Pos)
    requires p.g < |j.program| && p.i < |j.program[p.g]| && j.program[p.g][p.i].Kept()
    ensures IsTag(j, IdOf(j, p).tag) && IdOf(j, p).tag.group == p.g
    ensures TensorAt(j, IdOf(j, p).tag) == j.program[p.g][p.i].tensor
  {
    StoredGrows(j.program[p.g], p.i);
  }

  lemma {:induction false} StoredMonotone(xs: seq<Saved>, a: nat, b: nat)
    requires a <= b <= |xs|
    ensures Stored(xs[..a]) <= Stored(xs[..b])
  {
    assert xs[..b][..a] == xs[..a];
    StoredPrefix(xs[..b], a);
  }

  lemma IdsDiffer(j: Job, p: Pos, q: Pos)
    requires p.g < |j.program| && p.i < |j.program[p.g]| && q.g < |j.program| && q.i < |j.program[q.g]|
    requires p != q && j.program[p.g][p.i].Kept() && j.program[q.g][q.i].Kept()
    ensures IdOf(j, p) != IdOf(j, q)
  {
    if p.g == q.g {
      var xs := j.program[p.g];
      var a, b := if p.i < q.i then p.i else q.i, if p.i < q.i then q.i else p.i;
      StoredGrows(xs, a);
      StoredMonotone(xs, a + 1, b);
    }
  }

  /** Every tag belongs to a pushed tensor. */
  lemma {:induction false} TagHasPos(j: Job, t: Tag, n: nat) returns (i: nat)
    requires t.group < |j.program| && n <= |j.program[t.group]| && t.count < |Stored(j.program[t.group][..n])|
    ensures i < n && j.program[t.group][i].Kept() && IdOf(j, Pos(t.group, i)) == Tagged(t)
  {
    StoredGrows(j.program[t.group], n - 1);
    if t.count < |Stored(j.program[t.group][..n - 1])| {
      i := TagHasPos(j, t, n - 1);
    } else {
      i := n - 1;
    }
  }

  lemma {:induction false} CollectSkips(order: seq<Tag>, more: seq<Tag>, state: map<Tag, Slot>, g: nat)
    requires forall t | t in more :: t.group != g
    ensures Collect(order + more, state, g) == Collect(order, state, g)
  {
    if more == [] {
      assert order + more == order;
    } else {
      var n := |more| - 1;
      assert (order + more)[..|order + more| - 1] == order + more[..n];
      CollectSkips(order, more[..n], state, g);
    }
  }

  function KeepFirst(m: map<Key, Tensor>, t: Tensor): map<Key, Tensor> {
    if t.KeyOf() in m then m else m[t.KeyOf() := t]
  }

  lemma CollectSnoc(order: seq<Tag>, t: Tag, state: map<Tag, Slot>)
    requires t in state && state[t].OnDevice?
    ensures Collect(order + [t], state, t.group) == KeepFirst(Collect(order, state, t.group), state[t].tensor)
  {
    assert (order + [t])[..|order|] == order;
  }

  lemma GroupTagsSnoc(order: seq<Tag>, g: nat, n: nat)
    ensures order + GroupTags(g, n + 1) == order + GroupTags(g, n) + [Tag(g, n)]
  {
    assert GroupTags(g, n + 1) == GroupTags(g, n) + [Tag(g, n)];
  }

  lemma FirstMapSnoc(ts: seq<Tensor>, n: nat)
    requires n < |ts|
    ensures FirstMap(ts[..n + 1]) == KeepFirst(FirstMap(ts[..n]), ts[n])
  {
    assert ts[..n + 1][..n] == ts[..n];
  }

  lemma FirstMapNone(ts: seq<Tensor>)
    ensures FirstMap(ts[..0]) == map[]
  {
  }

  lemma CollectMore(before: seq<Tag>, ts: seq<Tensor>, state: map<Tag, Slot>, t: Tag, n: nat)
    requires n < |ts| && Collect(before, state, t.group) == FirstMap(ts[..n])
    requires t in state && state[t] == OnDevice(ts[n])
    ensures Collect(before + [t], state, t.group) == FirstMap(ts[..n + 1])
  {
    hide Collect, FirstMap, KeepFirst;
    CollectSnoc(before, t, state);
    FirstMapSnoc(ts, n);
  }

  lemma {:induction false} CollectOne(order: seq<Tag>, ts: seq<Tensor>, state: map<Tag, Slot>, g: nat, n: nat)
    requires Collect(order, state, g) == map[] && n <= |ts|
    requires forall x | 0 <= x < |ts| :: Tag(g, x) in state && state[Tag(g, x)] == OnDevice(ts[x])
    ensures Collect(order + GroupTags(g, n), state, g) == FirstMap(ts[..n])
  {
    hide Collect, FirstMap, GroupTags;
    if n == 0 {
      FirstMapNone(ts);
      assert order + GroupTags(g, n) == order;
    } else {
      CollectOne(order, ts, state, g, n - 1);
      GroupTagsSnoc(order, g, n - 1);
      CollectMore(order + GroupTags(g, n - 1), ts, state, Tag(g, n - 1), n - 1);
    }
  }

  /** Bulk offload of a group whose pushes are over collects its first tensors by key. */
  lemma {:induction false} CollectGroup(j: Job, k: nat, state: map<Tag, Slot>, g: nat)
    requires k <= |j.program|
    requires forall t | IsTag(j, t) && t.group == g && t.group < k :: t in state && state[t] == OnDevice(TensorAt(j, t))
    ensures Collect(TagsUpTo(j, k), state, g) == if g < k then FirstMap(Stored(j.program[g])) else map[]
  {
    if k > 0 {
      var ts := Stored(j.program[k - 1]);
      CollectGroup(j, k - 1, state, g);
      if k - 1 == g {
        forall x | 0 <= x < |ts|
          ensures Tag(g, x) in state && state[Tag(g, x)] == OnDevice(ts[x])
        {
          assert IsTag(j, Tag(g, x)) && TensorAt(j, Tag(g, x)) == ts[x];
        }
        CollectOne(TagsUpTo(j, k - 1), ts, state, g, |ts|);
        assert ts[..|ts|] == ts;
      } else {
        CollectSkips(TagsUpTo(j, k - 1), GroupTags(k - 1, |ts|), state, g);
      }
    }
  }

  // ----- steps

  lemma StartInv(c: Config, j: Job)
    requires j.Valid() && j.Settings(c)
    ensures ForwardInv(c, j, EMPTY, 0, 0)
  {
    assert j.program[0][..0] == [];
  }

  /** A group is not moved before its own commit. */
  lemma NotYetMoved(c: Config, g: nat)
    requires WindowMap.Good(c.groups, c.layers, c.window)
    ensures !(Offloads(c, g) && Called(c, g, g))
    ensures g < c.groups ==> g <= c.window[g]
  {
    if 0 < g < c.groups && c.groups < c.layers {
      assert g - 1 + 1 <= c.window[g - 1];
    }
  }

  lemma PushState(c: Config, j: Job, state: map<Tag, Slot>, g: nat, n: nat)
    requires WindowMap.Good(c.groups, c.layers, c.window)
    requires ForwardState(c, j, state, g, n) && IsTag(j, Tag(g, n))
    ensures Tag(g, n) !in state
    ensures ForwardState(c, j, state[Tag(g, n) := OnDevice(TensorAt(j, Tag(g, n)))], g, n + 1)
  {
    NotYetMoved(c, g);
    var state' := state[Tag(g, n) := OnDevice(TensorAt(j, Tag(g, n)))];
    forall t
      ensures t in state' <==> Pushed(j, g, n + 1, t)
    {
      assert t == Tag(g, n) <==> t.group == g && t.count == n;
    }
  }

  lemma PushBuf(c: Config, j: Job, buf: map<Tag, Option<Tensor>>, g: nat, n: nat)
    requires WindowMap.Good(c.groups, c.layers, c.window)
    requires ForwardBuf(c, j, buf, g, n) && IsTag(j, Tag(g, n))
    ensures ForwardBuf(c, j, if g < c.groups then buf[Tag(g, n) := Some(TensorAt(j, Tag(g, n)))] else buf, g, n + 1)
  {
    NotYetMoved(c, g);
    var buf' := if g < c.groups then buf[Tag(g, n) := Some(TensorAt(j, Tag(g, n)))] else buf;
    forall t
      ensures t in buf' <==> Pushed(j, g, n + 1, t) && t.group < c.groups
    {
      assert t == Tag(g, n) <==> t.group == g && t.count == n;
    }
  }

  lemma PushStep(c: Config, j: Job, h: Handler, g: nat, i: nat)
    requires j.Valid() && j.Settings(c) && g < |j.program| && i < |j.program[g]|
    requires ForwardInv(c, j, h, g, i)
    ensures var r := Push(c, h, j.program[g][i]);
            r.Ok? && r.value.1 == IdOf(j, Pos(g, i)) && ForwardInv(c, j, r.value.0, g, i + 1)
  {
    StoredGrows(j.program[g], i);
    if j.program[g][i].Kept() {
      IdIsTag(j, Pos(g, i));
      hide Stored, IsTag, TensorAt, ForwardState, ForwardBuf, ForwardDone, ForwardMapping, TagsUpTo, GroupTags;
      PushState(c, j, h.state, g, h.count);
      PushBuf(c, j, h.buf, g, h.count);
      GroupTagsSnoc(TagsUpTo(j, g), g, h.count);
    }
  }

  /** Which groups a forward commit adds to those bulk-offloaded. */
  lemma CalledNext(c: Config, g: nat, done: nat)
    requires WindowMap.Good(c.groups, c.layers, c.window) && ForwardDone(c, done, g) && g < c.layers
    ensures done < c.groups && g <= c.window[done]
    ensures forall q: nat :: Called(c, q, g + 1) <==>
              Called(c, q, g) || (g == 0 && q == 0) || (c.window[done] == g && q == done + 1 < c.groups)
    ensures ForwardDone(c, if c.window[done] == g then done + 1 else done, g + 1)
  {
    assert c.window[c.groups - 1] == c.layers - 1;
    var first := c.window[done];
    forall q: nat | q < c.groups && c.window[q] == g
      ensures q == done
    {
    }
    forall q: nat
      ensures Called(c, q, g + 1) <==>
                Called(c, q, g) || (g == 0 && q == 0) || (c.window[done] == g && q == done + 1 < c.groups)
    {
      if q > 0 {
        var p: nat := q - 1;
        assert p < c.groups && c.window[p] == g ==> p == done;
      }
    }
  }

  /** The groups a forward commit of layer g bulk-offloads. */
  function CallsAt(c: Config, g: nat, done: nat): seq<nat>
    requires done in c.window
  {
    var tail := if c.window[done] == g && done + 1 < c.groups then [done + 1] else [];
    if g == 0 then [0] + tail else tail
  }

  lemma OffloadOne(c: Config, j: Job, h: Handler, g: nat, q: nat)
    requires j.Valid() && j.Settings(c) && g < |j.program| && q < c.groups
    requires h.order == TagsUpTo(j, g + 1)
    requires forall t :: t in h.state <==> Pushed(j, g + 1, 0, t)
    requires forall t | t in h.state && t.group == q :: IsTag(j, t) && h.state[t] == OnDevice(TensorAt(j, t))
    requires q <= g <==> Offloads(c, q)
    ensures BulkOffload(h, q) ==
            Ok(h.(state := MoveGroup(h.state, q), mapping := h.mapping[q := GroupCopies(c, j, q)]))
  {
    hide Collect, FirstMap, Copies, MoveGroup, TagsUpTo, BulkOffload, GroupOnDevice, Stored;
    AllOnDevice(j, h.state, q);
    CollectGroup(j, g + 1, h.state, q);
    CopiesNone();
    BulkOffloadUnfolds(h, q);
  }

  lemma AllOnDevice(j: Job, state: map<Tag, Slot>, q: nat)
    requires forall t | t in state && t.group == q :: IsTag(j, t) && state[t] == OnDevice(TensorAt(j, t))
    ensures GroupOnDevice(state, q)
  {
  }

  lemma CopiesNone()
    ensures Copies(map[]) == map[]
  {
  }

  lemma LayerPushed(j: Job, g: nat, t: Tag)
    requires g < |j.program|
    ensures Pushed(j, g, |Stored(j.program[g])|, t) <==> Pushed(j, g + 1, 0, t)
  {
  }

  /** A forward commit moves the slots of the groups that it bulk-offloads, and these had been pushed
      and were not moved before. */
  lemma SlotMoves(c: Config, j: Job, t: Tag, g: nat, done: nat)
    requires WindowMap.Good(c.groups, c.layers, c.window) && ForwardDone(c, done, g) && g < c.layers
    requires done in c.window && IsTag(j, t) && t.group <= g
    ensures ForwardSlot(c, j, t, g + 1) ==
            if t.group in CallsAt(c, g, done) then MoveSlot(ForwardSlot(c, j, t, g)) else ForwardSlot(c, j, t, g)
  {
    CalledNext(c, g, done);
    CalledNow(c, t.group, g, done);
    hide WindowMap.Good, ForwardDone, CallsAt, Called, TensorAt;
  }

  lemma CalledNow(c: Config, q: nat, g: nat, done: nat)
    requires WindowMap.Good(c.groups, c.layers, c.window) && ForwardDone(c, done, g) && g < c.layers
    requires done in c.window && q <= g
    ensures q in CallsAt(c, g, done) ==> Offloads(c, q) && Called(c, q, g + 1) && !Called(c, q, g)
    ensures q !in CallsAt(c, g, done) ==> (Called(c, q, g + 1) <==> Called(c, q, g))
  {
    CalledNext(c, g, done);
    assert q in CallsAt(c, g, done) <==> (g == 0 && q == 0) || (c.window[done] == g && q == done + 1 < c.groups);
    assert c.groups == c.layers ==> c.window[done] == done;
  }

  lemma CommitState(c: Config, j: Job, state: map<Tag, Slot>, state': map<Tag, Slot>, g: nat, done: nat)
    requires j.Valid() && j.Settings(c) && g < |j.program| && ForwardDone(c, done, g)
    requires ForwardState(c, j, state, g, |Stored(j.program[g])|)
    requires state'.Keys == state.Keys && done in c.window
    requires forall t | t in state :: state'[t] == if t.group in CallsAt(c, g, done) then MoveSlot(state[t])
      else state[t]
    ensures ForwardState(c, j, state', g + 1, 0)
  {
    hide ForwardDone, ForwardSlot, CallsAt, IsTag;
    forall t | t in state'
      ensures state'[t] == ForwardSlot(c, j, t, g + 1)
    {
      SlotMoves(c, j, t, g, done);
    }
    forall t
      ensures Pushed(j, g, |Stored(j.program[g])|, t) <==> Pushed(j, g + 1, 0, t)
    {
      LayerPushed(j, g, t);
    }
  }

  lemma CommitBuf(c: Config, j: Job, buf: map<Tag, Option<Tensor>>, g: nat, done: nat)
    requires j.Valid() && j.Settings(c) && g < |j.program| && ForwardDone(c, done, g)
    requires ForwardBuf(c, j, buf, g, |Stored(j.program[g])|) && done in c.window
    ensures ForwardBuf(c, j, if c.window[done] == g then Release(buf, done) else buf, g + 1, 0)
  {
    CalledNext(c, g, done);
    forall q: nat | q < c.groups
      ensures c.window[q] == g ==> q == done
    {
    }
  }

  lemma CommitMapping(c: Config, j: Job, mapping: map<nat, map<Key, CpuCopy>>, mapping': map<nat, map<Key, CpuCopy>>,
        g: nat, done: nat)
    requires j.Valid() && j.Settings(c) && g < |j.program| && ForwardDone(c, done, g)
    requires ForwardMapping(c, j, mapping, g) && done in c.window
    requires forall q: nat :: q in mapping' <==> q in mapping || q in CallsAt(c, g, done)
    requires forall q: nat | q in mapping' :: mapping'[q] == if q in CallsAt(c, g, done) then GroupCopies(c, j, q)
      else mapping[q]
    ensures ForwardMapping(c, j, mapping', g + 1)
  {
    CalledNext(c, g, done);
    forall q: nat
      ensures q in mapping' <==> Called(c, q, g + 1)
    {
      assert q in CallsAt(c, g, done) <==>
        (g == 0 && q == 0) || (c.window[done] == g && q == done + 1 < c.groups);
    }
  }

  type Mapping = map<nat, map<Key, CpuCopy>>

  /** Bulk-offloading the groups in `calls` turns state and mapping into state' and mapping'. */
  ghost predicate Moves(c: Config, j: Job, state: map<Tag, Slot>, mapping: Mapping,
                        state': map<Tag, Slot>, mapping': Mapping, calls: seq<nat>)
  {
    && state'.Keys == state.Keys
    && (forall t | t in state :: state'[t] == if t.group in calls then MoveSlot(state[t]) else state[t])
    && (forall q: nat :: q in mapping' <==> q in mapping || q in calls)
    && (forall q | q in calls && q < |j.program| :: mapping'[q] == GroupCopies(c, j, q))
    && (forall q: nat | q in mapping && q !in calls :: mapping'[q] == mapping[q])
  }

  lemma OffloadedSlots(c: Config, j: Job, h: Handler, g: nat, q: nat)
    requires j.Valid() && j.Settings(c) && g < |j.program| && !Called(c, q, g)
    requires ForwardState(c, j, h.state, g, |Stored(j.program[g])|)
    ensures forall t :: t in h.state <==> Pushed(j, g + 1, 0, t)
    ensures forall t | t in h.state && t.group == q :: IsTag(j, t) && h.state[t] == OnDevice(TensorAt(j, t))
  {
  }

  lemma MovesOne(c: Config, j: Job, state: map<Tag, Slot>, mapping: Mapping, q: nat)
    requires q < |j.program|
    ensures Moves(c, j, state, mapping, MoveGroup(state, q), mapping[q := GroupCopies(c, j, q)], [q])
  {
  }

  lemma MovesTwo(c: Config, j: Job, s: map<Tag, Slot>, m: Mapping, s0: map<Tag, Slot>, m0: Mapping,
                 s': map<Tag, Slot>, m': Mapping, a: seq<nat>, b: seq<nat>)
    requires Moves(c, j, s, m, s0, m0, a) && Moves(c, j, s0, m0, s', m', b) && forall q | q in a :: q !in b
    ensures Moves(c, j, s, m, s', m', a + b)
  {
  }

  lemma KickResult(c: Config, j: Job, h: Handler)
    requires j.Valid() && j.Settings(c) && ForwardInv(c, j, h, 0, |j.program[0]|)
    ensures BulkOffload(h, 0) ==
            Ok(h.(state := MoveGroup(h.state, 0), mapping := h.mapping[0 := GroupCopies(c, j, 0)]))
  {
    assert j.program[0][..|j.program[0]|] == j.program[0];
    OffloadedSlots(c, j, h, 0, 0);
    OffloadOne(c, j, h, 0, 0);
  }

  lemma SlideResult(c: Config, j: Job, h: Handler, g: nat)
    requires j.Valid() && j.Settings(c) && g < |j.program| && h.done < c.groups && c.window[h.done] == g
    requires h.order == TagsUpTo(j, g + 1) && h.group == g
    requires forall t :: t in h.state <==> Pushed(j, g + 1, 0, t)
    requires forall t | t in h.state && t.group == h.done + 1 :: IsTag(j, t) && h.state[t] == OnDevice(TensorAt(j, t))
    requires h.done + 1 < c.groups
    ensures Slide(c, h) ==
            Ok((h.(buf := Release(h.buf, h.done), done := h.done + 1,
                   state := MoveGroup(h.state, h.done + 1),
                   mapping := h.mapping[h.done + 1 := GroupCopies(c, j, h.done + 1)]), [h.done + 1]))
  {
    hide BulkOffload, MoveGroup, Release, GroupCopies, TagsUpTo, Slide, Pushed, IsTag, TensorAt, Offloads;
    OffloadsAhead(c, h.done, g);
    OffloadOne(c, j, h.(buf := Release(h.buf, h.done)), g, h.done + 1);
    SlideUnfolds(c, h);
  }

  /** Only with as many groups as layers is a group bulk-offloaded before it is pushed. */
  lemma OffloadsAhead(c: Config, done: nat, g: nat)
    requires WindowMap.Good(c.groups, c.layers, c.window) && done + 1 < c.groups && c.window[done] == g
    ensures done + 1 <= g <==> Offloads(c, done + 1)
  {
  }

  lemma SlideUnfolds(c: Config, h: Handler)
    requires h.done in c.window && c.window[h.done] == h.group && h.done + 1 < c.groups
    ensures var r := BulkOffload(h.(buf := Release(h.buf, h.done)), h.done + 1);
      r.Ok? ==> Slide(c, h) == Ok((r.value.(done := h.done + 1), [h.done + 1]))
  {
  }

  ghost predicate SlideDone(c: Config, j: Job, h: Handler, g: nat, h': Handler, calls: seq<nat>)
    requires h.done in c.window
  {
    && h'.order == h.order
    && h'.done == (if c.window[h.done] == g then h.done + 1 else h.done)
    && h'.buf == (if c.window[h.done] == g then Release(h.buf, h.done) else h.buf)
    && Moves(c, j, h.state, h.mapping, h'.state, h'.mapping, calls)
  }

  lemma SlideOk(c: Config, j: Job, h: Handler, g: nat)
    requires j.Valid() && j.Settings(c) && g < |j.program| && h.done in c.window
    requires h.order == TagsUpTo(j, g + 1) && h.group == g
    requires forall t :: t in h.state <==> Pushed(j, g + 1, 0, t)
    requires forall t | t in h.state && t.group == h.done + 1 :: IsTag(j, t) && h.state[t] == OnDevice(TensorAt(j, t))
    ensures var r := Slide(c, h);
            && r.Ok?
            && r.value.1 == (if c.window[h.done] == g && h.done + 1 < c.groups then [h.done + 1] else [])
            && SlideDone(c, j, h, g, r.value.0, r.value.1)
  {
    hide Pushed, IsTag, TensorAt, MoveGroup, GroupCopies, Release, BulkOffload, TagsUpTo;
    if c.window[h.done] == g && h.done + 1 < c.groups {
      SlideResult(c, j, h, g);
      MovesOne(c, j, h.state, h.mapping, h.done + 1);
    }
  }

  lemma CommitReady(c: Config, j: Job, h: Handler, g: nat)
    requires j.Valid() && j.Settings(c) && g < |j.program|
    requires ForwardInv(c, j, h, g, |j.program[g]|)
    ensures h.done in c.window && h.order == TagsUpTo(j, g + 1) && h.group == g
    ensures forall t :: t in h.state <==> Pushed(j, g + 1, 0, t)
    ensures forall t | t in h.state && t.group == h.done + 1 :: IsTag(j, t) && h.state[t] == OnDevice(TensorAt(j, t))
  {
    assert j.program[g][..|j.program[g]|] == j.program[g];
    CalledNext(c, g, h.done);
    assert !Called(c, h.done + 1, g);
    OffloadedSlots(c, j, h, g, h.done + 1);
  }

  /** A forward commit is its first-group offload, then the window part, then the counters. */
  lemma CommitForwardParts(c: Config, j: Job, h: Handler, h0: Handler, g: nat)
    requires h.group == g && h0.group == g
    requires if g == 0 then BulkOffload(h, 0) == Ok(h0) else h0 == h
    requires Slide(c, h0).Ok?
    ensures var r := Slide(c, h0).value;
            CommitForward(c, h) ==
            Ok((r.0.(group := g + 1, count := 0), if g == 0 then [0] + r.1 else r.1))
  {
  }

  lemma SlideDoneCounters(c: Config, j: Job, h: Handler, g: nat, h': Handler, calls: seq<nat>)
    requires h.done in c.window && SlideDone(c, j, h, g, h', calls)
    ensures SlideDone(c, j, h, g, h'.(group := g + 1, count := 0), calls)
  {
  }

  lemma SlideAfterKick(c: Config, j: Job, h: Handler, h0: Handler, h': Handler, calls: seq<nat>)
    requires 0 < |j.program| && h.done in c.window && 0 !in calls
    requires h0 == h.(state := MoveGroup(h.state, 0), mapping := h.mapping[0 := GroupCopies(c, j, 0)])
    requires SlideDone(c, j, h0, 0, h', calls)
    ensures SlideDone(c, j, h, 0, h', [0] + calls)
  {
    MovesOne(c, j, h.state, h.mapping, 0);
    MovesTwo(c, j, h.state, h.mapping, h0.state, h0.mapping, h'.state, h'.mapping, [0], calls);
  }

  lemma KickReady(c: Config, j: Job, h: Handler, h0: Handler)
    requires j.Valid() && j.Settings(c) && ForwardInv(c, j, h, 0, |j.program[0]|)
    requires h0 == h.(state := MoveGroup(h.state, 0), mapping := h.mapping[0 := GroupCopies(c, j, 0)])
    ensures forall t :: t in h0.state <==> Pushed(j, 1, 0, t)
    ensures forall t | t in h0.state && t.group == h.done + 1 :: IsTag(j, t) && h0.state[t] == OnDevice(TensorAt(j, t))
  {
    CommitReady(c, j, h, 0);
  }

  lemma CommitResult(c: Config, j: Job, h: Handler, g: nat)
    requires j.Valid() && j.Settings(c) && g < |j.program|
    requires ForwardInv(c, j, h, g, |j.program[g]|)
    ensures h.done in c.window && h.order == TagsUpTo(j, g + 1)
    ensures CommitForward(c, h).Ok? && CommitForward(c, h).value.1 == CallsAt(c, g, h.done)
    ensures var h' := CommitForward(c, h).value.0;
            h'.group == g + 1 && h'.count == 0 && SlideDone(c, j, h, g, h', CallsAt(c, g, h.done))
  {
    hide *;
    CommitReady(c, j, h, g);
    var h0 := h;
    if g == 0 {
      h0 := h.(state := MoveGroup(h.state, 0), mapping := h.mapping[0 := GroupCopies(c, j, 0)]);
      KickResult(c, j, h);
      KickReady(c, j, h, h0);
    }
    SlideOk(c, j, h0, g);
    var r := Slide(c, h0).value;
    CommitForwardParts(c, j, h, h0, g);
    if g == 0 {
      SlideAfterKick(c, j, h, h0, r.0, r.1);
      SlideDoneCounters(c, j, h, g, r.0, [0] + r.1);
      CallsAtUnfold(c, g, h.done);
    } else {
      SlideDoneCounters(c, j, h, g, r.0, r.1);
      CallsAtUnfold(c, g, h.done);
    }
  }

  lemma CallsAtUnfold(c: Config, g: nat, done: nat)
    requires done in c.window
    ensures var tail := if c.window[done] == g && done + 1 < c.groups then [done + 1] else [];
            CallsAt(c, g, done) == if g == 0 then [0] + tail else tail
  {
  }

  lemma CommitForwardStep(c: Config, j: Job, h: Handler, g: nat)
    requires j.Valid() && j.Settings(c) && g < |j.program|
    requires ForwardInv(c, j, h, g, |j.program[g]|)
    ensures h.done in c.window
    ensures var r := CommitForward(c, h);
            r.Ok? && r.value.1 == CallsAt(c, g, h.done) && ForwardInv(c, j, r.value.0, g + 1, 0)
  {
    hide ForwardState, ForwardBuf, ForwardMapping, Called, CommitForward, Pushed, MoveSlot, Release;
    assert j.program[g][..|j.program[g]|] == j.program[g];
    CommitResult(c, j, h, g);
    var h' := CommitForward(c, h).value.0;
    CalledNext(c, g, h.done);
    CommitState(c, j, h.state, h'.state, g, h.done);
    CommitBuf(c, j, h.buf, g, h.done);
    CommitMapping(c, j, h.mapping, h'.mapping, g, h.done);
    if g + 1 < |j.program| {
      assert j.program[g + 1][..0] == [];
    }
    assert h'.order == TagsUpTo(j, g + 1) + GroupTags(g + 1, 0);
  }

  // ----- the way back

  lemma {:induction false} TagsUpToMembers(j: Job, g: nat, t: Tag)
    requires g <= |j.program|
    ensures t in TagsUpTo(j, g) <==> IsTag(j, t) && t.group < g
  {
    if g > 0 {
      TagsUpToMembers(j, g - 1, t);
      var more := GroupTags(g - 1, |Stored(j.program[g - 1])|);
      assert t in more <==> t.group == g - 1 && t.count < |more| by {
        if t.group == g - 1 && t.count < |more| {
          assert more[t.count] == t;
        }
      }
    }
  }

  /** After the last forward commit everything is as the way back expects it. */
  lemma TurnState(c: Config, j: Job, h: Handler)
    requires j.Valid() && j.Settings(c) && ForwardInv(c, j, h, |j.program|, 0)
    ensures BackwardState(c, j, h.state, |j.program|, {}) && BackwardBuf(c, j, h.buf, {})
  {
    var l := |j.program|;
    forall q: nat | q < c.groups
      ensures c.window[q] < l && Called(c, q, l)
    {
      if q > 0 {
        var p: nat := q - 1;
        assert c.window[p] < l;
      }
    }
    forall t | t in h.state
      ensures h.state[t] == BackwardSlot(c, j, t, l)
    {
      assert h.state[t] == ForwardSlot(c, j, t, l);
    }
  }

  lemma Turn(c: Config, j: Job, h: Handler)
    requires j.Valid() && j.Settings(c) && ForwardInv(c, j, h, |j.program|, 0)
    ensures BackwardInv(c, j, h, |j.program|, {})
  {
    var l := |j.program|;
    TurnState(c, j, h);
    forall t
      ensures t in h.order <==> t in h.state
    {
      TagsUpToMembers(j, l, t);
    }
    assert c.window[c.groups - 1] < l;
    forall q: nat
      ensures Called(c, q, l) <==> q < c.groups && c.window[q] < l
    {
      if 0 < q < c.groups {
        var p: nat := q - 1;
        assert c.window[p] < l;
      }
    }
  }

  /** The group a backward commit reaching layer g reloads, if any, is the last one not reloaded. */
  lemma ReloadNext(c: Config, g: nat, done: nat)
    requires WindowMap.Good(c.groups, c.layers, c.window) && BackwardDone(c, done, g + 1)
    ensures done - 1 in c.window
    ensures forall q: nat | q < c.groups :: c.window[q] == g ==> q == done - 1
    ensures BackwardDone(c, if g == 0 then 0 else if c.window[done - 1] == g && done > 1 then done - 1 else done, g)
  {
    var last: nat := done - 1;
    var w := c.window[last];
    forall q: nat | q < c.groups && c.window[q] == g
      ensures q == last
    {
      assert q == 0 || q < done;
    }
  }

  lemma ReloadFits(c: Config, j: Job, state: map<Tag, Slot>, g: nat, popped: set<Tag>, q: nat)
    requires j.Valid() && j.Settings(c) && q < c.groups && c.window[q] == g
    requires BackwardState(c, j, state, g + 1, popped) && forall t | t in popped :: t.group > g
    ensures GroupCanReload(GroupCopies(c, j, q), state, q) <==> (Offloads(c, q) ==> Fits(Stored(j.program[q])))
  {
    var ts := Stored(j.program[q]);
    var copies := GroupCopies(c, j, q);
    if Offloads(c, q) {
      forall x | 0 <= x < |ts|
        ensures Tag(q, x) in state && state[Tag(q, x)] == Moved(ts[x].KeyOf(), ts[x].shape)
      {
        assert IsTag(j, Tag(q, x)) && TensorAt(j, Tag(q, x)) == ts[x];
      }
      if GroupCanReload(copies, state, q) {
        forall x | 0 <= x < |ts|
          ensures Numel(ts[x].shape) == |FirstMap(ts)[ts[x].KeyOf()].data|
        {
          assert CanReload(copies, state[Tag(q, x)]);
        }
      }
      if Fits(ts) {
        forall t | t in state && t.group == q
          ensures CanReload(copies, state[t])
        {
          assert IsTag(j, t) && TensorAt(j, t) == ts[t.count];
        }
      }
    }
  }

  lemma ReloadState(c: Config, j: Job, state: map<Tag, Slot>, g: nat, popped: set<Tag>, q: nat)
    requires j.Valid() && j.Settings(c) && q < c.groups && c.window[q] == g
    requires BackwardState(c, j, state, g + 1, popped)
    requires forall p: nat | p < c.groups :: c.window[p] == g ==> p == q
    requires GroupCanReload(GroupCopies(c, j, q), state, q)
    ensures BackwardState(c, j, ReloadGroup(GroupCopies(c, j, q), state, q), g, popped)
  {
    var copies := GroupCopies(c, j, q);
    var state' := ReloadGroup(copies, state, q);
    forall t | t in state'
      ensures state'[t] == BackwardSlot(c, j, t, g)
    {
      assert state[t] == BackwardSlot(c, j, t, g + 1);
      if t.group == q && Offloads(c, q) {
        var x := TensorAt(j, t);
        assert CanReload(copies, state[t]);
        assert FirstMap(Stored(j.program[q]))[x.KeyOf()].KeyOf() == x.KeyOf();
      }
    }
  }

  lemma NoReload(c: Config, j: Job, state: map<Tag, Slot>, mapping: Mapping, g: nat, popped: set<Tag>)
    requires j.Valid() && j.Settings(c)
    requires BackwardState(c, j, state, g + 1, popped) && BackwardMapping(c, j, mapping, g + 1)
    requires forall p: nat | p < c.groups :: c.window[p] != g
    ensures BackwardState(c, j, state, g, popped) && BackwardMapping(c, j, mapping, g)
  {
    forall t | t in state
      ensures state[t] == BackwardSlot(c, j, t, g)
    {
      assert state[t] == BackwardSlot(c, j, t, g + 1);
    }
  }

  lemma ReloadResult(c: Config, j: Job, h: Handler, g: nat, popped: set<Tag>)
    requires j.Valid() && j.Settings(c) && g < |j.program|
    requires BackwardInv(c, j, h, g + 1, popped) && h.done - 1 in c.window && c.window[h.done - 1] == g
    ensures var q := h.done - 1;
            var r := BulkReload(c, h.(group := g), q);
            && (r.Ok? <==> (Offloads(c, q) ==> Fits(Stored(j.program[q]))))
            && (r.Ok? ==>
                  && BackwardState(c, j, r.value.state, g, popped) && r.value.state.Keys == h.state.Keys
                  && r.value == h.(group := g, state := r.value.state, mapping := h.mapping - {q}))
  {
    hide BackwardState, BackwardBuf, BackwardDone, GroupCopies, Fits, Offloads, Stored, GroupCanReload, ReloadSlot,
      BulkReload;
    ReloadNext(c, g, h.done);
    var q: nat := h.done - 1;
    BulkReloadUnfolds(c, h.(group := g), q);
    ReloadFits(c, j, h.state, g, popped, q);
    assert h.mapping[q] == GroupCopies(c, j, q);
    if GroupCanReload(GroupCopies(c, j, q), h.state, q) {
      ReloadState(c, j, h.state, g, popped, q);
    }
  }

  lemma ReloadMapping(c: Config, j: Job, mapping: Mapping, g: nat, q: nat)
    requires j.Valid() && j.Settings(c) && BackwardMapping(c, j, mapping, g + 1)
    requires q < c.groups && c.window[q] == g && forall p: nat | p < c.groups :: c.window[p] == g ==> p == q
    ensures BackwardMapping(c, j, mapping - {q}, g)
  {
  }

  lemma CommitBackwardReloads(c: Config, h: Handler)
    requires h.group > 0 && h.done > 0 && h.done - 1 in c.window && c.window[h.done - 1] == h.group - 1
    ensures var r := BulkReload(c, h.(group := h.group - 1), h.done - 1);
      var done := if h.group == 1 then 0 else if h.done > 1 then h.done - 1 else h.done;
      && (r.Err? ==> CommitBackward(c, h) == Err(r.error))
      && (r.Ok? && r.value.group == h.group - 1 ==> CommitBackward(c, h) == Ok((r.value.(done := done), [h.done - 1])))
  {
    hide BulkReload;
  }

  lemma ReloadedInv(c: Config, j: Job, h: Handler, g: nat, popped: set<Tag>, state: map<Tag, Slot>, mapping: Mapping,
        done: nat)
    requires j.Valid() && j.Settings(c) && g < |j.program| && BackwardInv(c, j, h, g + 1, popped)
    requires BackwardState(c, j, state, g, popped) && state.Keys == h.state.Keys
    requires BackwardMapping(c, j, mapping, g) && BackwardDone(c, done, g)
    ensures BackwardInv(c, j, h.(group := g, state := state, mapping := mapping, done := done), g, popped)
  {
    hide BackwardState, BackwardBuf, BackwardDone, BackwardMapping;
  }

  lemma CommitBackwardHit(c: Config, j: Job, h: Handler, g: nat, popped: set<Tag>)
    requires j.Valid() && j.Settings(c) && g < |j.program|
    requires BackwardInv(c, j, h, g + 1, popped) && h.done - 1 in c.window && c.window[h.done - 1] == g
    ensures var r := CommitBackward(c, h);
            && (r.Ok? <==> (Offloads(c, h.done - 1) ==> Fits(Stored(j.program[h.done - 1]))))
            && (r.Ok? ==> r.value.1 == [h.done - 1] && BackwardInv(c, j, r.value.0, g, popped))
  {
    assert h.group == g + 1 && h.done > 0 && BackwardDone(c, h.done, g + 1) && BackwardMapping(c, j, h.mapping, g + 1);
    hide CommitBackward, BulkReload, BackwardInv, BackwardState, BackwardDone, BackwardMapping, Stored, Fits, Offloads;
    ReloadNext(c, g, h.done);
    ReloadResult(c, j, h, g, popped);
    ReloadMapping(c, j, h.mapping, g, h.done - 1);
    CommitBackwardReloads(c, h);
    var r := BulkReload(c, h.(group := g), h.done - 1);
    if r.Ok? {
      ReloadedInv(c, j, h, g, popped, r.value.state, h.mapping - {h.done - 1},
                  if g == 0 then 0 else if h.done > 1 then h.done - 1 else h.done);
    }
  }

  lemma CommitBackwardMiss(c: Config, j: Job, h: Handler, g: nat, popped: set<Tag>)
    requires j.Valid() && j.Settings(c) && g < |j.program|
    requires BackwardInv(c, j, h, g + 1, popped) && h.done - 1 in c.window && c.window[h.done - 1] != g
    ensures var r := CommitBackward(c, h);
            r.Ok? && r.value.1 == [] && BackwardInv(c, j, r.value.0, g, popped)
  {
    hide BulkReload, BackwardState, BackwardBuf, BackwardDone, BackwardMapping, Stored;
    ReloadNext(c, g, h.done);
    NoReload(c, j, h.state, h.mapping, g, popped);
  }

  /** A backward commit fails exactly when it reloads a moved group whose copies do not fit. */
  lemma CommitBackwardStep(c: Config, j: Job, h: Handler, g: nat, popped: set<Tag>)
    requires j.Valid() && j.Settings(c) && g < |j.program|
    requires BackwardInv(c, j, h, g + 1, popped)
    ensures h.done - 1 in c.window
    ensures var r := CommitBackward(c, h);
            var hit := c.window[h.done - 1] == g;
            && (r.Ok? <==> (hit && Offloads(c, h.done - 1) ==> Fits(Stored(j.program[h.done - 1]))))
            && (r.Ok? ==> r.value.1 == (if hit then [h.done - 1] else []) && BackwardInv(c, j, r.value.0, g, popped))
  {
    ReloadNext(c, g, h.done);
    hide CommitBackward, Stored, Fits;
    if c.window[h.done - 1] == g {
      CommitBackwardHit(c, j, h, g, popped);
    } else {
      CommitBackwardMiss(c, j, h, g, popped);
    }
  }

  /** What the pop for a saved tensor returns. */
  ghost function Out(c: Config, j: Job, p: Pos): Tensor
    requires p.g < |j.program| && p.i < |j.program[p.g]|
  {
    var s := j.program[p.g][p.i];
    if s.Kept() && Offloads(c, p.g) then
      IdIsTag(j, p);
      Returned(j, IdOf(j, p).tag)
    else s.tensor
  }

  lemma PopTagged(c: Config, j: Job, h: Handler, t: Tag, popped: set<Tag>)
    requires j.Valid() && j.Settings(c) && t.group < |j.program|
    requires BackwardInv(c, j, h, t.group, popped) && IsTag(j, t) && t !in popped
    ensures t in h.state && h.state[t] == OnDevice(if Offloads(c, t.group) then Returned(j, t) else TensorAt(j, t))
    ensures BackwardState(c, j, h.state - {t}, t.group, popped + {t})
    ensures BackwardBuf(c, j, h.buf - {t}, popped + {t})
  {
    assert t in h.state;
    assert h.state[t] == BackwardSlot(c, j, t, t.group);
  }

  lemma PopStep(c: Config, j: Job, h: Handler, p: Pos, popped: set<Tag>)
    requires j.Valid() && j.Settings(c) && p.g < |j.program| && p.i < |j.program[p.g]|
    requires BackwardInv(c, j, h, p.g, popped)
    requires IdOf(j, p).Tagged? ==> IdOf(j, p).tag !in popped
    ensures var r := Pop(h, IdOf(j, p));
            && r.Ok? && r.value.1 == Out(c, j, p)
            && BackwardInv(c, j, r.value.0, p.g, if IdOf(j, p).Tagged? then popped + {IdOf(j, p).tag} else popped)
  {
    if IdOf(j, p).Tagged? {
      IdIsTag(j, p);
      PopTagged(c, j, h, IdOf(j, p).tag, popped);
      hide BackwardState, BackwardBuf, BackwardDone, BackwardMapping, Returned, TensorAt;
    }
  }
}
