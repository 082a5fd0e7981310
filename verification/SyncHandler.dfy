/** The synchronous offload handler, the simple form of the asynchronous one: every tensor of an
    offloaded group is copied when pushed and copied back when popped. */
module SyncHandler {
  import opened OffloadHandler
  import opened Tensors
  import opened Wrappers

  datatype SyncSlot = Live(tensor: Tensor) | Backed(copy: CpuCopy)

  datatype Sync = Sync(group: nat, count: nat, state: map<Tag, SyncSlot>)

  function SyncSlotFor(groups: nat, group: nat, s: Saved): SyncSlot {
    if group < groups && s.wanted then Backed(Offload(s.tensor)) else Live(s.tensor)
  }

  function SyncPush(groups: nat, h: Sync, s: Saved): Result<(Sync, Tag), Error> {
    var tag := Tag(h.group, h.count);
    if tag in h.state then Err(TagTaken)
    else Ok((h.(count := h.count + 1, state := h.state[tag := SyncSlotFor(groups, h.group, s)]), tag))
  }

  function SyncPop(h: Sync, tag: Tag): Result<(Sync, Tensor), Error> {
    if tag !in h.state then Err(TagMissing)
    else Ok((h.(state := h.state - {tag}),
             if h.state[tag].Backed? then Reload(h.state[tag].copy) else h.state[tag].tensor))
  }

  function SyncCommitForward(h: Sync): Sync {
    h.(group := h.group + 1, count := 0)
  }

  function SyncCommitBackward(h: Sync): Result<Sync, Error> {
    if h.group == 0 then Err(BadGroup) else Ok(h.(group := h.group - 1))
  }

  class SynchronizedGroupOffloadHandler {
    const numOffloadGroup: nat
    var currentGroup: nat
    var tensorCountCurrentGroup: nat
    var tensorTagToState: map<Tag, SyncSlot>

    function Value(): Sync
      reads this
    {
      Sync(currentGroup, tensorCountCurrentGroup, tensorTagToState)
    }

    constructor (numOffloadGroup: nat)
      ensures Value() == Sync(0, 0, map[]) && this.numOffloadGroup == numOffloadGroup
    {
      this.numOffloadGroup := numOffloadGroup;
      currentGroup, tensorCountCurrentGroup, tensorTagToState := 0, 0, map[];
    }

    method TensorPush(s: Saved) returns (r: Result<Tag, Error>)
      modifies this
      ensures var p := old(SyncPush(numOffloadGroup, Value(), s));
              if p.Err? then r == Err(p.error) else r == Ok(p.value.1) && Value() == p.value.0
    {
      var tag := Tag(currentGroup, tensorCountCurrentGroup);
      tensorCountCurrentGroup := tensorCountCurrentGroup + 1;
      if tag in tensorTagToState {
        return Err(TagTaken);
      }
      if currentGroup < numOffloadGroup && s.wanted {
        tensorTagToState := tensorTagToState[tag := Backed(Offload(s.tensor))];
      } else {
        tensorTagToState := tensorTagToState[tag := Live(s.tensor)];
      }
      r := Ok(tag);
    }

    method TensorPop(tag: Tag) returns (r: Result<Tensor, Error>)
      modifies this
      ensures var p := old(SyncPop(Value(), tag));
              if p.Err? then r == Err(p.error) else r == Ok(p.value.1) && Value() == p.value.0
    {
      if tag !in tensorTagToState {
        return Err(TagMissing);
      }
      var slot := tensorTagToState[tag];
      tensorTagToState := tensorTagToState - {tag};
      match slot
      case Backed(copy) => r := Ok(Reload(copy));
      case Live(tensor) => r := Ok(tensor);
    }

    method OnGroupCommitForward()
      modifies this
      ensures Value() == old(SyncCommitForward(Value()))
    {
      currentGroup := currentGroup + 1;
      tensorCountCurrentGroup := 0;
    }

    method OnGroupCommitBackward() returns (r: Result<(), Error>)
      modifies this
      ensures var p := old(SyncCommitBackward(Value()));
              if p.Err? then r == Err(p.error) else r == Ok(()) && Value() == p.value
    {
      if currentGroup == 0 {
        return Err(BadGroup);
      }
      currentGroup := currentGroup - 1;
      r := Ok(());
    }
  }
}
