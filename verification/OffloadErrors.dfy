/** Which assertion or lookup of the asynchronous handler fails, in any state whatever. */
module OffloadErrors {
  import opened OffloadHandler
  import opened Tensors
  import opened Wrappers

  /** A tensor of the group has been moved and not been reloaded. */
  ghost predicate SomeMoved(state: map<Tag, Slot>, g: int) {
    exists t :: t in state && t.group == g && state[t].Moved?
  }

  /** A tensor of the group has no copy under its key, or one of another size. */
  ghost predicate SomeUnfit(state: map<Tag, Slot>, copies: map<Key, CpuCopy>, g: int) {
    exists t ::
      && t in state && t.group == g && state[t].Moved?
      && (state[t].key !in copies || Numel(state[t].shape) != |copies[state[t].key].data|)
  }

  /** A push fails exactly when it would hand out a tag that is taken, and only for a tensor that gets
      one. */
  lemma PushFails(c: Config, h: Handler, s: Saved)
    ensures Push(c, h, s).Err? <==> !s.stray && s.wanted && Tag(h.group, h.count) in h.state
    ensures Push(c, h, s).Err? ==> Push(c, h, s).error == TagTaken
  {
  }

  /** A pop fails exactly for a tag that is not there, or whose tensor has not come back. */
  lemma PopFails(h: Handler, id: Ident)
    ensures Pop(h, id) == Err(TagMissing) <==> id.Tagged? && id.tag !in h.state
    ensures Pop(h, id) == Err(StillMoved) <==> id.Tagged? && id.tag in h.state && h.state[id.tag].Moved?
    ensures Pop(h, id).Err? ==> Pop(h, id).error == TagMissing || Pop(h, id).error == StillMoved
  {
  }

  lemma BulkOffloadFails(h: Handler, g: nat)
    ensures BulkOffload(h, g).Err? <==> SomeMoved(h.state, g)
    ensures BulkOffload(h, g).Err? ==> BulkOffload(h, g).error == AlreadyMoved
  {
    hide Collect, Copies, MoveGroup;
  }

  lemma BulkReloadFails(c: Config, h: Handler, g: nat)
    ensures var r := BulkReload(c, h, g);
      && (r == Err(BadGroup) <==> g >= c.groups)
      && (r == Err(KeyMissing) <==> g < c.groups && g !in h.mapping)
      && (r == Err(ReloadFailed) <==> g < c.groups && g in h.mapping && SomeUnfit(h.state, h.mapping[g], g))
      && (r.Err? ==> r.error == BadGroup || r.error == KeyMissing || r.error == ReloadFailed)
  {
    BulkReloadUnfolds(c, h, g);
    hide ReloadGroup, BulkReload;
    if g in h.mapping {
      assert GroupCanReload(h.mapping[g], h.state, g) <==> !SomeUnfit(h.state, h.mapping[g], g) by {
        UnfitIff(h.state, h.mapping[g], g);
      }
    }
  }

  lemma UnfitIff(state: map<Tag, Slot>, copies: map<Key, CpuCopy>, g: nat)
    ensures GroupCanReload(copies, state, g) <==> !SomeUnfit(state, copies, g)
  {
    if !SomeUnfit(state, copies, g) {
      forall t | t in state && t.group == g
        ensures CanReload(copies, state[t])
      {
      }
    }
    if t :| t in state && t.group == g && !CanReload(copies, state[t]) {
      assert state[t].Moved?;
    }
  }

  /** A forward commit fails exactly when a group that it offloads has a moved tensor, or the window
      map has no entry. */
  lemma CommitForwardFails(c: Config, h: Handler)
    ensures CommitForward(c, h).Err? <==>
            || (h.group == 0 && SomeMoved(h.state, 0))
            || h.done !in c.window
            || (c.window[h.done] == h.group && h.done + 1 < c.groups && SomeMoved(h.state, h.done + 1))
    ensures CommitForward(c, h).Err? ==>
              CommitForward(c, h).error ==
              if (h.group == 0 && SomeMoved(h.state, 0)) || h.done in c.window then AlreadyMoved else KeyMissing
  {
    BulkOffloadFails(h, 0);
    var h0 := if h.group == 0 && BulkOffload(h, 0).Ok? then BulkOffload(h, 0).value else h;
    BulkOffloadIs(h, 0);
    var h1 := h0.(buf := Release(h0.buf, h0.done));
    BulkOffloadFails(h1, h.done + 1);
    OthersStay(h.state, 0, h.done + 1);
    hide BulkOffload, Release, MoveGroup, SomeMoved;
  }

  lemma BulkOffloadIs(h: Handler, g: nat)
    ensures var r := BulkOffload(h, g);
      r.Ok? ==> r.value.state == MoveGroup(h.state, g) && r.value.done == h.done && r.value.group == h.group
  {
    hide Collect, Copies, MoveGroup, GroupOnDevice;
  }

  lemma OthersStay(state: map<Tag, Slot>, g: nat, q: nat)
    requires q != g
    ensures SomeMoved(MoveGroup(state, g), q) <==> SomeMoved(state, q)
  {
    var state' := MoveGroup(state, g);
    if t :| t in state && t.group == q && state[t].Moved? {
      assert t in state' && state'[t] == state[t];
    }
    if t :| t in state' && t.group == q && state'[t].Moved? {
      assert t in state && state'[t] == state[t];
    }
  }

  /** A backward commit fails exactly at group 0, without an entry in the window map, or when the
      reload at its window fails. */
  lemma CommitBackwardFails(c: Config, h: Handler)
    ensures CommitBackward(c, h).Err? <==>
            || h.group == 0
            || h.done - 1 !in c.window
            || (c.window[h.done - 1] == h.group - 1 &&
                (h.done == 0 || h.done - 1 >= c.groups || h.done - 1 !in h.mapping
                 || SomeUnfit(h.state, h.mapping[h.done - 1], h.done - 1)))
  {
    if h.group > 0 && h.done > 0 {
      BulkReloadFails(c, h.(group := h.group - 1), h.done - 1);
    }
    hide BulkReload, SomeUnfit;
  }
}
