/** The asynchronous double-buffered offload handler: its state as a value, its operations as
    functions on that value, and the class whose methods update the fields in place. */
module OffloadHandler {
  import opened Tensors
  import WindowMap
  import opened Wrappers

  datatype Tag = Tag(group: nat, count: nat)

  /** What a push hands back: a tag to look the tensor up by, or the tensor itself. */
  datatype Ident = Tagged(tag: Tag) | Direct(tensor: Tensor)

  datatype Slot = OnDevice(tensor: Tensor) | Moved(key: Key, shape: seq<nat>)

  datatype Error =
    | TagTaken          // assertion on push
    | TagMissing        // assertion on pop
    | StillMoved        // assertion on pop: nothing reloaded the tensor
    | AlreadyMoved      // assertion on bulk offload
    | BadGroup          // assertion on bulk reload or on the group counter
    | KeyMissing        // lookup in the window map or in the group map
    | ReloadFailed      // no copy under the key, or a view of another size

  datatype Config = Config(groups: nat, layers: nat, window: map<int, int>)

  /** The fields of the handler. `order` is the insertion order of `state`, which is a
      dictionary in the source and is walked in that order. */
  datatype Handler = Handler(
    group: nat, count: nat,
    state: map<Tag, Slot>, order: seq<Tag>,
    buf: map<Tag, Option<Tensor>>,
    done: nat,
    mapping: map<nat, map<Key, CpuCopy>>)
  {
    ghost predicate Valid() {
      (forall t :: t in order <==> t in state) && NoDuplicates(order)
    }
  }

  const EMPTY := Handler(0, 0, map[], [], map[], 0, map[])

  function Push(c: Config, h: Handler, s: Saved): Result<(Handler, Ident), Error> {
    if !s.Kept() then Ok((h, Direct(s.tensor))) else
    var tag := Tag(h.group, h.count);
    if tag in h.state then Err(TagTaken) else
    Ok((h.(count := h.count + 1,
           state := h.state[tag := OnDevice(s.tensor)],
           order := h.order + [tag],
           buf := if h.group < c.groups then h.buf[tag := Some(s.tensor)] else h.buf),
        Tagged(tag)))
  }

  ghost predicate NoDuplicates(order: seq<Tag>) {
    forall i, j | 0 <= i < j < |order| :: order[i] != order[j]
  }

  function Without(order: seq<Tag>, tag: Tag): (r: seq<Tag>)
    ensures forall t :: t in r <==> t in order && t != tag
    ensures NoDuplicates(order) ==> NoDuplicates(r)
  {
    if order == [] then []
    else if order[0] == tag then Without(order[1..], tag)
    else
      var rest := Without(order[1..], tag);
      assert NoDuplicates(order) ==> order[0] !in order[1..] && NoDuplicates(order[1..]);
      assert NoDuplicates(order) ==> order[0] !in rest;
      [order[0]] + rest
  }

  lemma {:induction false} WithoutNothing(b: seq<Tag>, tag: Tag)
    requires tag !in b
    ensures Without(b, tag) == b
  {
    if b != [] {
      WithoutNothing(b[1..], tag);
      assert b == [b[0]] + b[1..];
    }
  }

  lemma WithoutFirst(t: Tag, rest: seq<Tag>, tag: Tag)
    ensures Without([t] + rest, tag) == if t == tag then Without(rest, tag) else [t] + Without(rest, tag)
  {
    assert ([t] + rest)[1..] == rest;
  }

  lemma FirstOut(a: seq<Tag>, b: seq<Tag>)
    requires a != []
    ensures a + b == [a[0]] + (a[1..] + b)
  {
  }

  /** Taking a tag out keeps the order of the others. */
  lemma {:induction false} WithoutKeepsOrder(a: seq<Tag>, tag: Tag, b: seq<Tag>)
    requires tag !in a && tag !in b
    ensures Without(a + ([tag] + b), tag) == a + b
  {
    WithoutNothing(b, tag);
    hide Without;
    var all := [tag] + b;
    WithoutFirst(tag, b, tag);
    if a == [] {
      assert a + all == all && a + b == b;
    } else {
      var t, more := a[0], a[1..];
      assert t != tag && tag !in more;
      WithoutKeepsOrder(more, tag, b);
      WithoutFirst(t, more + all, tag);
      FirstOut(a, all);
      FirstOut(a, b);
    }
  }

  function Pop(h: Handler, id: Ident): Result<(Handler, Tensor), Error> {
    match id
    case Direct(t) => Ok((h, t))
    case Tagged(tag) =>
      if tag !in h.state then Err(TagMissing)
      else if h.state[tag].Moved? then Err(StillMoved)
      else Ok((h.(state := h.state - {tag}, order := Without(h.order, tag), buf := h.buf - {tag}),
               h.state[tag].tensor))
  }

  /** The first tensor of group g under each key, in insertion order. */
  function Collect(order: seq<Tag>, state: map<Tag, Slot>, g: nat): map<Key, Tensor> {
    if order == [] then map[] else
    var m := Collect(order[..|order| - 1], state, g);
    var t := order[|order| - 1];
    if t.group == g && t in state && state[t].OnDevice? && state[t].tensor.KeyOf() !in m
    then m[state[t].tensor.KeyOf() := state[t].tensor]
    else m
  }

  function Copies(m: map<Key, Tensor>): map<Key, CpuCopy> {
    map k | k in m :: Offload(m[k])
  }

  function MoveSlot(s: Slot): Slot {
    if s.OnDevice? then Moved(s.tensor.KeyOf(), s.tensor.shape) else s
  }

  function MoveGroup(state: map<Tag, Slot>, g: nat): map<Tag, Slot> {
    map t | t in state :: if t.group == g then MoveSlot(state[t]) else state[t]
  }

  ghost predicate GroupOnDevice(state: map<Tag, Slot>, g: nat) {
    forall t :: t in state && t.group == g ==> state[t].OnDevice?
  }

  ghost function BulkOffload(h: Handler, g: nat): Result<Handler, Error> {
    if !GroupOnDevice(h.state, g) then Err(AlreadyMoved)
    else Ok(h.(state := MoveGroup(h.state, g),
               mapping := h.mapping[g := Copies(Collect(h.order, h.state, g))]))
  }

  /** The slot's tensor as a view of the copy under its key; needs the copy and its size. */
  predicate CanReload(copies: map<Key, CpuCopy>, s: Slot) {
    s.Moved? ==> s.key in copies && Numel(s.shape) == |copies[s.key].data|
  }

  function ReloadSlot(copies: map<Key, CpuCopy>, s: Slot): Slot
    requires CanReload(copies, s)
  {
    if s.OnDevice? then s else OnDevice(Reload(copies[s.key]).(shape := s.shape))
  }

  ghost predicate GroupCanReload(copies: map<Key, CpuCopy>, state: map<Tag, Slot>, g: nat) {
    forall t :: t in state && t.group == g ==> CanReload(copies, state[t])
  }

  ghost function ReloadGroup(copies: map<Key, CpuCopy>, state: map<Tag, Slot>, g: nat): map<Tag, Slot>
    requires GroupCanReload(copies, state, g)
  {
    map t | t in state :: if t.group == g then ReloadSlot(copies, state[t]) else state[t]
  }

  ghost function BulkReload(c: Config, h: Handler, g: nat): Result<Handler, Error> {
    if g >= c.groups then Err(BadGroup)
    else if g !in h.mapping then Err(KeyMissing)
    else if !GroupCanReload(h.mapping[g], h.state, g) then Err(ReloadFailed)
    else Ok(h.(state := ReloadGroup(h.mapping[g], h.state, g), mapping := h.mapping - {g}))
  }

  function Release(buf: map<Tag, Option<Tensor>>, g: nat): map<Tag, Option<Tensor>> {
    map t | t in buf :: if t.group == g then None else buf[t]
  }

  /** The window part of a forward commit: release the oldest buffer, start the next offload. */
  ghost function Slide(c: Config, h: Handler): Result<(Handler, seq<nat>), Error> {
    if h.done !in c.window then Err(KeyMissing)
    else if c.window[h.done] != h.group then Ok((h, []))
    else
      var h1 := h.(buf := Release(h.buf, h.done));
      if h.done + 1 >= c.groups then Ok((h1.(done := h.done + 1), []))
      else
        var r := BulkOffload(h1, h.done + 1);
        if r.Err? then Err(r.error) else Ok((r.value.(done := h.done + 1), [h.done + 1]))
  }

  /** The new state, and the groups bulk-offloaded on the way, in order. */
  ghost function CommitForward(c: Config, h: Handler): Result<(Handler, seq<nat>), Error> {
    var r0 := if h.group == 0 then BulkOffload(h, 0) else Ok(h);
    if r0.Err? then Err(r0.error) else
    var r1 := Slide(c, r0.value);
    if r1.Err? then Err(r1.error) else
    Ok((r1.value.0.(group := h.group + 1, count := 0),
        if h.group == 0 then [0] + r1.value.1 else r1.value.1))
  }

  /** The new state, and the groups bulk-reloaded on the way. */
  ghost function CommitBackward(c: Config, h: Handler): Result<(Handler, seq<nat>), Error> {
    if h.group == 0 then Err(BadGroup) else
    var h0 := h.(group := h.group - 1);
    if h.done - 1 !in c.window then Err(KeyMissing)
    else if c.window[h.done - 1] != h0.group then
      Ok((if h0.group == 0 then h0.(done := 0) else h0, []))
    else if h.done == 0 then Err(KeyMissing)
    else
      var r1 := BulkReload(c, h0, h.done - 1);
      if r1.Err? then Err(r1.error) else
      var h1 := r1.value.(done := if h.done > 1 then h.done - 1 else h.done);
      Ok((if h1.group == 0 then h1.(done := 0) else h1, [h.done - 1]))
  }

  // ----- the loops of the bulk operations, step by step

  lemma BulkOffloadUnfolds(h: Handler, g: nat)
    ensures BulkOffload(h, g) ==
            if !GroupOnDevice(h.state, g) then Err(AlreadyMoved)
            else Ok(h.(state := MoveGroup(h.state, g), mapping := h.mapping[g := Copies(Collect(h.order, h.state, g))]))
  {
  }

  /** The tags of group g among `seen` have been moved, and nothing else has changed. */
  ghost predicate MovedSoFar(was: map<Tag, Slot>, now: map<Tag, Slot>, seen: seq<Tag>, g: nat) {
    && now.Keys == was.Keys
    && (forall t :: t in was && t in seen && t.group == g ==> was[t].OnDevice?)
    && (forall t :: t in was ==> now[t] == if t.group == g && t in seen then MoveSlot(was[t]) else was[t])
  }

  lemma MovedNone(was: map<Tag, Slot>, g: nat)
    ensures MovedSoFar(was, was, [], g) && Collect([], was, g) == map[]
  {
  }

  lemma MovedStep(was: map<Tag, Slot>, now: map<Tag, Slot>, order: seq<Tag>, i: nat, g: nat)
    requires i < |order| && NoDuplicates(order) && MovedSoFar(was, now, order[..i], g)
    requires forall t :: t in order <==> t in was
    ensures var tag, seen := order[i], order[..i] + [order[i]];
      && tag in was && tag in now && now[tag] == was[tag]
      && (tag.group != g ==> MovedSoFar(was, now, seen, g))
      && (tag.group == g && was[tag].Moved? ==> !GroupOnDevice(was, g))
      && (tag.group == g && was[tag].OnDevice? ==>
            MovedSoFar(was, now[tag := Moved(was[tag].tensor.KeyOf(), was[tag].tensor.shape)], seen, g))
  {
    var tag, seen := order[i], order[..i] + [order[i]];
    assert tag in order;
    assert tag !in order[..i];
    assert forall t :: t in seen <==> t in order[..i] || t == tag;
  }

  lemma MovedAll(was: map<Tag, Slot>, now: map<Tag, Slot>, order: seq<Tag>, g: nat)
    requires MovedSoFar(was, now, order, g) && forall t :: t in order <==> t in was
    ensures GroupOnDevice(was, g) && now == MoveGroup(was, g) && now.Keys == was.Keys
  {
  }

  lemma CollectStep(order: seq<Tag>, t: Tag, state: map<Tag, Slot>, g: nat)
    ensures var m := Collect(order, state, g);
      Collect(order + [t], state, g) ==
      if t.group == g && t in state && state[t].OnDevice? && state[t].tensor.KeyOf() !in m
      then m[state[t].tensor.KeyOf() := state[t].tensor] else m
  {
    assert (order + [t])[..|order|] == order;
  }

  lemma BulkReloadUnfolds(c: Config, h: Handler, g: nat)
    ensures BulkReload(c, h, g) ==
            if g >= c.groups then Err(BadGroup)
            else if g !in h.mapping then Err(KeyMissing)
            else if !GroupCanReload(h.mapping[g], h.state, g) then Err(ReloadFailed)
            else Ok(h.(state := ReloadGroup(h.mapping[g], h.state, g), mapping := h.mapping - {g}))
  {
  }

  /** The tags of group g among `seen` have been reloaded, and nothing else has changed. */
  ghost predicate ReloadedSoFar(copies: map<Key, CpuCopy>, was: map<Tag, Slot>, now: map<Tag, Slot>, seen: seq<Tag>,
        g: nat)
  {
    && now.Keys == was.Keys
    && (forall t :: t in was && t in seen && t.group == g ==> CanReload(copies, was[t]))
    && (forall t :: t in was ==> now[t] == if t.group == g && t in seen then ReloadSlot(copies, was[t]) else was[t])
  }

  lemma ReloadedNone(copies: map<Key, CpuCopy>, was: map<Tag, Slot>, g: nat)
    ensures ReloadedSoFar(copies, was, was, [], g)
  {
  }

  lemma ReloadedStep(copies: map<Key, CpuCopy>, was: map<Tag, Slot>, now: map<Tag, Slot>, order: seq<Tag>, i: nat,
        g: nat)
    requires i < |order| && NoDuplicates(order) && ReloadedSoFar(copies, was, now, order[..i], g)
    requires forall t :: t in order <==> t in was
    ensures var tag, seen := order[i], order[..i] + [order[i]];
      && tag in was && tag in now && now[tag] == was[tag]
      && (tag.group != g || was[tag].OnDevice? ==> ReloadedSoFar(copies, was, now, seen, g))
      && (tag.group == g && was[tag].Moved? ==>
            var s := was[tag];
            if s.key !in copies || Numel(s.shape) != |copies[s.key].data| then !GroupCanReload(copies, was, g)
            else ReloadedSoFar(copies, was, now[tag := OnDevice(Reload(copies[s.key]).(shape := s.shape))], seen, g))
  {
    var tag, seen := order[i], order[..i] + [order[i]];
    assert tag in order;
    assert tag !in order[..i];
    assert forall t :: t in seen <==> t in order[..i] || t == tag;
    assert CanReload(copies, was[tag]) || !CanReload(copies, was[tag]);
  }

  lemma ReloadedAll(copies: map<Key, CpuCopy>, was: map<Tag, Slot>, now: map<Tag, Slot>, order: seq<Tag>, g: nat)
    requires ReloadedSoFar(copies, was, now, order, g) && forall t :: t in order <==> t in was
    ensures GroupCanReload(copies, was, g) && now == ReloadGroup(copies, was, g) && now.Keys == was.Keys
  {
  }

  class AsyncDoubleBufferGroupOffloadHandler {
    const numOffloadGroup: nat
    const numLayers: nat
    var currentGroup: nat
    var tensorCountCurrentGroup: nat
    var tensorTagToState: map<Tag, Slot>
    var stateOrder: seq<Tag>
    var tensorTagToBuf: map<Tag, Option<Tensor>>
    var offloadedGroupCount: nat
    var layerWindowMap: map<int, int>
    var groupOffloadMapping: map<nat, map<Key, CpuCopy>>

    function Value(): Handler
      reads this
    {
      Handler(currentGroup, tensorCountCurrentGroup, tensorTagToState, stateOrder, tensorTagToBuf,
              offloadedGroupCount, groupOffloadMapping)
    }

    function Settings(): Config
      reads this
    {
      Config(numOffloadGroup, numLayers, layerWindowMap)
    }

    constructor (numOffloadGroup: nat, numModelGroup: nat)
      ensures Value() == EMPTY
      ensures Settings().groups == numOffloadGroup && Settings().layers == numModelGroup
      ensures 1 <= numOffloadGroup <= numModelGroup ==>
                WindowMap.Good(numOffloadGroup, numModelGroup, layerWindowMap)
    {
      this.numOffloadGroup := numOffloadGroup;
      this.numLayers := numModelGroup;
      currentGroup, tensorCountCurrentGroup := 0, 0;
      tensorTagToState, stateOrder, tensorTagToBuf := map[], [], map[];
      offloadedGroupCount := 0;
      groupOffloadMapping := map[];
      var w := WindowMap.Build(numOffloadGroup, numModelGroup);
      layerWindowMap := w;
      if 1 <= numOffloadGroup <= numModelGroup {
        WindowMap.BuiltWindowIsGood(numOffloadGroup, numModelGroup, w);
      }
    }

    method TensorPush(s: Saved) returns (r: Result<Ident, Error>)
      requires Value().Valid()
      modifies this
      ensures layerWindowMap == old(layerWindowMap)
      ensures var p := old(Push(Settings(), Value(), s));
              if p.Err? then r == Err(p.error)
              else r == Ok(p.value.1) && Value() == p.value.0 && Value().Valid()
    {
      var needOffload := !s.stray;
      needOffload := needOffload && s.wanted;
      if needOffload {
        var tag := Tag(currentGroup, tensorCountCurrentGroup);
        tensorCountCurrentGroup := tensorCountCurrentGroup + 1;
        if tag in tensorTagToState {
          return Err(TagTaken);
        }
        tensorTagToState := tensorTagToState[tag := OnDevice(s.tensor)];
        stateOrder := stateOrder + [tag];
        if currentGroup < numOffloadGroup {
          tensorTagToBuf := tensorTagToBuf[tag := Some(s.tensor)];
        }
        r := Ok(Tagged(tag));
      } else {
        r := Ok(Direct(s.tensor));
      }
    }

    method TensorPop(id: Ident) returns (r: Result<Tensor, Error>)
      requires Value().Valid()
      modifies this
      ensures layerWindowMap == old(layerWindowMap)
      ensures var p := old(Pop(Value(), id));
              if p.Err? then r == Err(p.error)
              else r == Ok(p.value.1) && Value() == p.value.0 && Value().Valid()
    {
      if id.Direct? {
        return Ok(id.tensor);
      }
      var tag := id.tag;
      if tag !in tensorTagToState {
        return Err(TagMissing);
      }
      var slot := tensorTagToState[tag];
      tensorTagToState := tensorTagToState - {tag};
      stateOrder := Without(stateOrder, tag);
      tensorTagToBuf := tensorTagToBuf - {tag};
      if slot.Moved? {
        return Err(StillMoved);
      }
      r := Ok(slot.tensor);
    }

    method BulkOffloadGroup(groupToOffload: nat) returns (r: Result<(), Error>)
      requires Value().Valid()
      modifies this
      ensures layerWindowMap == old(layerWindowMap)
      ensures var p := old(BulkOffload(Value(), groupToOffload));
              if p.Err? then r == Err(p.error)
              else r == Ok(()) && Value() == p.value && Value().Valid()
    {
      hide MovedSoFar, Collect, MoveGroup, MoveSlot, Copies, BulkOffload, GroupOnDevice, NoDuplicates, Tensor.KeyOf;
      ghost var was := tensorTagToState;
      BulkOffloadUnfolds(Value(), groupToOffload);
      MovedNone(was, groupToOffload);
      var offloadMapping: map<Key, Tensor> := map[];
      var i := 0;
      while i < |stateOrder|
        invariant 0 <= i <= |stateOrder|
        invariant stateOrder == old(stateOrder)
        invariant Value() == old(Value()).(state := tensorTagToState)
        invariant layerWindowMap == old(layerWindowMap)
        invariant offloadMapping == Collect(stateOrder[..i], was, groupToOffload)
        invariant MovedSoFar(was, tensorTagToState, stateOrder[..i], groupToOffload)
      {
        var tag := stateOrder[i];
        assert stateOrder[..i + 1] == stateOrder[..i] + [tag];
        MovedStep(was, tensorTagToState, stateOrder, i, groupToOffload);
        CollectStep(stateOrder[..i], tag, was, groupToOffload);
        if tag.group == groupToOffload {
          var slot := tensorTagToState[tag];
          if slot.Moved? {
            return Err(AlreadyMoved);
          }
          var key := slot.tensor.KeyOf();
          if key !in offloadMapping {
            offloadMapping := offloadMapping[key := slot.tensor];
          }
          tensorTagToState := tensorTagToState[tag := Moved(key, slot.tensor.shape)];
        }
        i := i + 1;
      }
      assert stateOrder[..i] == stateOrder;
      MovedAll(was, tensorTagToState, stateOrder, groupToOffload);
      groupOffloadMapping := groupOffloadMapping[groupToOffload := Copies(offloadMapping)];
      r := Ok(());
    }

    method BulkReloadGroup(groupToReload: nat) returns (r: Result<(), Error>)
      requires Value().Valid()
      modifies this
      ensures layerWindowMap == old(layerWindowMap)
      ensures var p := old(BulkReload(Settings(), Value(), groupToReload));
              if p.Err? then r == Err(p.error)
              else r == Ok(()) && Value() == p.value && Value().Valid()
    {
      hide ReloadedSoFar, ReloadGroup, ReloadSlot, BulkReload, GroupCanReload, CanReload, NoDuplicates;
      BulkReloadUnfolds(Settings(), Value(), groupToReload);
      if groupToReload >= numOffloadGroup {
        return Err(BadGroup);
      }
      if groupToReload !in groupOffloadMapping {
        return Err(KeyMissing);
      }
      var copies := groupOffloadMapping[groupToReload];
      groupOffloadMapping := groupOffloadMapping - {groupToReload};
      ghost var was := tensorTagToState;
      ReloadedNone(copies, was, groupToReload);
      for i := 0 to |stateOrder|
        invariant stateOrder == old(stateOrder)
        invariant Value() == old(Value()).(state := tensorTagToState, mapping := groupOffloadMapping)
        invariant layerWindowMap == old(layerWindowMap)
        invariant groupOffloadMapping == old(groupOffloadMapping) - {groupToReload}
        invariant ReloadedSoFar(copies, was, tensorTagToState, stateOrder[..i], groupToReload)
      {
        var tag := stateOrder[i];
        assert stateOrder[..i + 1] == stateOrder[..i] + [tag];
        ReloadedStep(copies, was, tensorTagToState, stateOrder, i, groupToReload);
        var slot := tensorTagToState[tag];
        if tag.group == groupToReload && slot.Moved? {
          if slot.key !in copies || Numel(slot.shape) != |copies[slot.key].data| {
            return Err(ReloadFailed);
          }
          tensorTagToState := tensorTagToState[tag := OnDevice(Reload(copies[slot.key]).(shape := slot.shape))];
        }
      }
      assert stateOrder[..|stateOrder|] == stateOrder;
      ReloadedAll(copies, was, tensorTagToState, stateOrder, groupToReload);
      r := Ok(());
    }

    /** The second half of `synchronize_on_group_commit_forward`. */
    method SlideWindow() returns (r: Result<seq<nat>, Error>)
      requires Value().Valid()
      modifies this
      ensures layerWindowMap == old(layerWindowMap)
      ensures var p := old(Slide(Settings(), Value()));
              if p.Err? then r == Err(p.error)
              else r == Ok(p.value.1) && Value() == p.value.0 && Value().Valid()
    {
      if offloadedGroupCount !in layerWindowMap {
        return Err(KeyMissing);
      }
      r := Ok([]);
      if layerWindowMap[offloadedGroupCount] == currentGroup {
        tensorTagToBuf := Release(tensorTagToBuf, offloadedGroupCount);
        if offloadedGroupCount + 1 < numOffloadGroup {
          var r1 := BulkOffloadGroup(offloadedGroupCount + 1);
          if r1.Err? {
            return Err(r1.error);
          }
          r := Ok([offloadedGroupCount + 1]);
        }
        offloadedGroupCount := offloadedGroupCount + 1;
      }
    }

    method OnGroupCommitForward() returns (r: Result<seq<nat>, Error>)
      requires Value().Valid()
      modifies this
      ensures layerWindowMap == old(layerWindowMap)
      ensures var p := old(CommitForward(Settings(), Value()));
              if p.Err? then r == Err(p.error)
              else r == Ok(p.value.1) && Value() == p.value.0 && Value().Valid()
    {
      if currentGroup == 0 {
        var r0 := BulkOffloadGroup(0);
        if r0.Err? {
          return Err(r0.error);
        }
      }
      r := SlideWindow();
      if r.Err? {
        return;
      }
      if currentGroup == 0 {
        r := Ok([0] + r.value);
      }
      currentGroup := currentGroup + 1;
      tensorCountCurrentGroup := 0;
    }

    method OnGroupCommitBackward() returns (r: Result<seq<nat>, Error>)
      requires Value().Valid()
      modifies this
      ensures layerWindowMap == old(layerWindowMap)
      ensures var p := old(CommitBackward(Settings(), Value()));
              if p.Err? then r == Err(p.error)
              else r == Ok(p.value.1) && Value() == p.value.0 && Value().Valid()
    {
      if currentGroup == 0 {
        return Err(BadGroup);
      }
      currentGroup := currentGroup - 1;
      var calls: seq<nat> := [];
      if offloadedGroupCount - 1 !in layerWindowMap {
        return Err(KeyMissing);
      }
      if layerWindowMap[offloadedGroupCount - 1] == currentGroup {
        if offloadedGroupCount == 0 {
          return Err(KeyMissing);
        }
        var r1 := BulkReloadGroup(offloadedGroupCount - 1);
        if r1.Err? {
          return Err(r1.error);
        }
        calls := [offloadedGroupCount - 1];
        if offloadedGroupCount > 1 {
          offloadedGroupCount := offloadedGroupCount - 1;
        }
      }
      if currentGroup == 0 {
        offloadedGroupCount := 0;
      }
      r := Ok(calls);
    }
  }
}
