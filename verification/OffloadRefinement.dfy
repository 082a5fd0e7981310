/** The asynchronous handler refines the synchronous one: on one schedule both return the same
    tensor at every pop, though their tags and the times of their copies differ. */
module OffloadRefinement {
  import opened OffloadHandler
  import opened OffloadInvariant
  import opened OffloadIteration
  import opened OffloadSchedule
  import opened OffloadTheorems
  import opened SyncHandler
  import opened Tensors
  import opened Wrappers

  datatype SyncRun = SyncRun(h: Sync, ids: map<Pos, Tag>, outs: map<Pos, Tensor>, pc: PC)

  const SYNC_START := SyncRun(Sync(0, 0, map[]), map[], map[], Forward(0, 0))

  function SyncStepBackward(s: SyncRun, g: nat): Result<SyncRun, Error> {
    var r := SyncCommitBackward(s.h);
    if r.Err? then Err(r.error) else Ok(s.(h := r.value, pc := Backward(g, 0)))
  }

  ghost function SyncNext(j: Job, s: SyncRun): Result<SyncRun, Error>
    requires j.Valid() && j.InRange(s.pc)
  {
    match s.pc
    case Forward(g, i) =>
      if g == |j.program| then SyncStepBackward(s, g - 1)
      else if i < |j.program[g]| then
        var r := SyncPush(j.groups, s.h, j.program[g][i]);
        if r.Err? then Err(r.error)
        else Ok(s.(h := r.value.0, ids := s.ids[Pos(g, i) := r.value.1], pc := Forward(g, i + 1)))
      else Ok(s.(h := SyncCommitForward(s.h), pc := Forward(g + 1, 0)))
    case Backward(g, k) =>
      if k < |j.pops[g]| then
        var p := Pos(g, j.pops[g][k]);
        if p !in s.ids then Err(TagMissing) else
        var r := SyncPop(s.h, s.ids[p]);
        if r.Err? then Err(r.error)
        else Ok(s.(h := r.value.0, outs := s.outs[p := r.value.1], pc := Backward(g, k + 1)))
      else if g > 0 then SyncStepBackward(s, g - 1)
      else Ok(s.(pc := Finished))
    case Finished => Ok(s)
  }

  ghost function SyncDrive(j: Job, s: SyncRun): Result<SyncRun, Error>
    requires j.Valid() && j.InRange(s.pc)
    decreases Phase(s.pc), LayersLeft(j, s.pc), StepsLeft(j, s.pc)
  {
    if s.pc.Finished? then Ok(s) else
    var r := SyncNext(j, s);
    if r.Err? then r else SyncDrive(j, r.value)
  }

  // ----- the synchronous handler along an iteration

  ghost predicate SyncPushed(j: Job, g: nat, i: nat, ids: map<Pos, Tag>) {
    && (forall p :: p in ids <==> PushedPos(j, g, i, p))
    && (forall p | p in ids :: ids[p] == Tag(p.g, p.i))
  }

  ghost predicate SyncHolds(j: Job, s: SyncRun) {
    && (forall t :: t in s.h.state <==> Pos(t.group, t.count) in s.ids && Pos(t.group, t.count) !in s.outs)
    && (forall t | t in s.h.state && IsPos(j, Pos(t.group, t.count)) ::
          s.h.state[t] == SyncSlotFor(j.groups, t.group, j.program[t.group][t.count]))
  }

  ghost predicate Popped(j: Job, g: nat, k: nat, outs: map<Pos, Tensor>)
    requires j.Valid()
  {
    forall p :: p in outs <==> PoppedPos(j, g, k, p)
  }

  ghost predicate SyncInv(j: Job, s: SyncRun)
    requires j.Valid() && j.InRange(s.pc)
  {
    && SyncHolds(j, s)
    && AllReturned(j, s.outs)
    && match s.pc
       case Forward(g, i) => s.h.group == g && s.h.count == i && SyncPushed(j, g, i, s.ids) && s.outs == map[]
       case Backward(g, k) =>
         s.h.group == g && SyncPushed(j, |j.program|, 0, s.ids) && Popped(j, g, k, s.outs)
       case Finished => SyncPushed(j, |j.program|, 0, s.ids) && Popped(j, 0, |j.pops[0]|, s.outs)
  }

  lemma SyncPushInv(j: Job, s: SyncRun)
    requires j.Valid() && j.InRange(s.pc) && SyncInv(j, s)
    requires s.pc.Forward? && s.pc.g < |j.program| && s.pc.i < |j.program[s.pc.g]|
    ensures SyncNext(j, s).Ok? && j.InRange(SyncNext(j, s).value.pc) && SyncInv(j, SyncNext(j, s).value)
  {
    var g, i := s.pc.g, s.pc.i;
    var s' := SyncNext(j, s).value;
    forall p
      ensures p in s'.ids <==> PushedPos(j, g, i + 1, p)
    {
      assert p == Pos(g, i) <==> p.g == g && p.i == i;
    }
    forall t
      ensures t in s'.h.state <==> Pos(t.group, t.count) in s'.ids
    {
      assert t == Tag(g, i) <==> Pos(t.group, t.count) == Pos(g, i);
    }
  }

  lemma SyncCommitInv(j: Job, s: SyncRun)
    requires j.Valid() && j.InRange(s.pc) && SyncInv(j, s)
    requires s.pc.Forward? && s.pc.g < |j.program| && s.pc.i == |j.program[s.pc.g]|
    ensures SyncNext(j, s).Ok? && j.InRange(SyncNext(j, s).value.pc) && SyncInv(j, SyncNext(j, s).value)
  {
    assert forall p :: PushedPos(j, s.pc.g, s.pc.i, p) <==> PushedPos(j, s.pc.g + 1, 0, p);
  }

  /** What is popped when layer g is committed backward: everything of the layers above. */
  lemma LayersPopped(j: Job, g: nat, outs: map<Pos, Tensor>)
    requires j.Valid() && g < |j.program|
    requires if g + 1 == |j.program| then outs == map[] else Popped(j, g + 1, |j.pops[g + 1]|, outs)
    ensures Popped(j, g, 0, outs)
  {
    if g + 1 < |j.program| {
      assert j.pops[g + 1][..|j.pops[g + 1]|] == j.pops[g + 1];
      assert forall p :: PoppedPos(j, g + 1, |j.pops[g + 1]|, p) <==> PoppedPos(j, g, 0, p);
    }
  }

  lemma SyncBackwardInv(j: Job, s: SyncRun)
    requires j.Valid() && j.InRange(s.pc) && SyncInv(j, s) && Committing(j, s.pc) >= 0
    ensures SyncNext(j, s).Ok? && j.InRange(SyncNext(j, s).value.pc) && SyncInv(j, SyncNext(j, s).value)
  {
    hide SyncPushed, Popped, AllReturned;
    LayersPopped(j, Committing(j, s.pc), s.outs);
  }

  /** A pop adds its tensor to those popped. */
  lemma PoppedMore(j: Job, g: nat, k: nat, outs: map<Pos, Tensor>, out: Tensor)
    requires j.Valid() && g < |j.program| && k < |j.pops[g]| && Popped(j, g, k, outs)
    ensures var p := Pos(g, j.pops[g][k]);
      IsPos(j, p) && p !in outs && Popped(j, g, k + 1, outs[p := out])
  {
    var p := Pos(g, j.pops[g][k]);
    assert p.i !in j.pops[g][..k];
    var outs' := outs[p := out];
    forall q
      ensures q in outs' <==> PoppedPos(j, g, k + 1, q)
    {
      assert q in outs <==> PoppedPos(j, g, k, q);
      assert j.pops[g][..k + 1] == j.pops[g][..k] + [j.pops[g][k]];
    }
  }

  /** The handler keeps the rest, and gives back the tensor itself. */
  lemma SyncPopped(j: Job, s: SyncRun, p: Pos)
    requires SyncHolds(j, s) && IsPos(j, p) && p in s.ids && s.ids[p] == Tag(p.g, p.i) && p !in s.outs
    ensures var r := SyncPop(s.h, s.ids[p]);
      && r.Ok? && r.value.1.SameValue(j.program[p.g][p.i].tensor) && r.value.0.group == s.h.group
      && SyncHolds(j, s.(h := r.value.0, outs := s.outs[p := r.value.1]))
  {
    var t := Tag(p.g, p.i);
    var r := SyncPop(s.h, t);
    var s' := s.(h := r.value.0, outs := s.outs[p := r.value.1]);
    forall x
      ensures x in s'.h.state <==> Pos(x.group, x.count) in s'.ids && Pos(x.group, x.count) !in s'.outs
    {
      assert x == t <==> Pos(x.group, x.count) == p;
    }
  }

  lemma SyncNextIsPop(j: Job, s: SyncRun)
    requires j.Valid() && j.InRange(s.pc) && s.pc.Backward? && s.pc.k < |j.pops[s.pc.g]|
    ensures var p := Pos(s.pc.g, j.pops[s.pc.g][s.pc.k]);
      p in s.ids && SyncPop(s.h, s.ids[p]).Ok? ==>
        && j.InRange(Backward(s.pc.g, s.pc.k + 1))
        && var (h, out) := SyncPop(s.h, s.ids[p]).value;
           SyncNext(j, s) == Ok(s.(h := h, outs := s.outs[p := out], pc := Backward(s.pc.g, s.pc.k + 1)))
  {
  }

  lemma ReturnedMore(j: Job, outs: map<Pos, Tensor>, p: Pos, out: Tensor)
    requires AllReturned(j, outs) && IsPos(j, p) && out.SameValue(j.program[p.g][p.i].tensor)
    ensures AllReturned(j, outs[p := out])
  {
  }

  lemma HoldsAnyPc(j: Job, s: SyncRun, pc: PC)
    requires SyncHolds(j, s)
    ensures SyncHolds(j, s.(pc := pc))
  {
  }

  lemma SyncPopInv(j: Job, s: SyncRun)
    requires j.Valid() && j.InRange(s.pc) && SyncInv(j, s)
    requires s.pc.Backward? && s.pc.k < |j.pops[s.pc.g]|
    ensures SyncNext(j, s).Ok? && j.InRange(SyncNext(j, s).value.pc) && SyncInv(j, SyncNext(j, s).value)
  {
    var g, k := s.pc.g, s.pc.k;
    var p := Pos(g, j.pops[g][k]);
    assert IsPos(j, p) && p in s.ids && s.ids[p] == Tag(p.g, p.i);
    hide SyncNext, SyncPop, SyncHolds, SyncPushed, Popped, AllReturned, IsPos, PoppedPos, PushedPos;
    SyncNextIsPop(j, s);
    var r := SyncPop(s.h, s.ids[p]);
    PoppedMore(j, g, k, s.outs, r.value.1);
    SyncPopped(j, s, p);
    ReturnedMore(j, s.outs, p, r.value.1);
    HoldsAnyPc(j, s.(h := r.value.0, outs := s.outs[p := r.value.1]), Backward(g, k + 1));
  }

  lemma SyncNextInv(j: Job, s: SyncRun)
    requires j.Valid() && j.InRange(s.pc) && SyncInv(j, s)
    ensures SyncNext(j, s).Ok? && j.InRange(SyncNext(j, s).value.pc) && SyncInv(j, SyncNext(j, s).value)
  {
    hide SyncHolds, SyncPushed, AllReturned;
    if Committing(j, s.pc) >= 0 {
      SyncBackwardInv(j, s);
    } else if s.pc.Forward? {
      if s.pc.i < |j.program[s.pc.g]| {
        SyncPushInv(j, s);
      } else {
        SyncCommitInv(j, s);
      }
    } else if s.pc.Backward? && s.pc.k < |j.pops[s.pc.g]| {
      SyncPopInv(j, s);
    } else {
      SyncFinishInv(j, s);
    }
  }

  lemma SyncFinishInv(j: Job, s: SyncRun)
    requires j.Valid() && j.InRange(s.pc) && SyncInv(j, s)
    requires s.pc.Finished? || (s.pc.Backward? && s.pc.g == 0 && s.pc.k == |j.pops[0]|)
    ensures SyncNext(j, s).Ok? && j.InRange(SyncNext(j, s).value.pc) && SyncInv(j, SyncNext(j, s).value)
  {
  }

  lemma SyncDescends(j: Job, s: SyncRun)
    requires j.Valid() && j.InRange(s.pc) && !s.pc.Finished?
    ensures var r := SyncNext(j, s);
            r.Ok? ==>
              && j.InRange(r.value.pc)
              && (Phase(r.value.pc) < Phase(s.pc) ||
                  (Phase(r.value.pc) == Phase(s.pc) &&
                   (LayersLeft(j, r.value.pc) < LayersLeft(j, s.pc) ||
                    (LayersLeft(j, r.value.pc) == LayersLeft(j, s.pc)
                      && StepsLeft(j, r.value.pc) < StepsLeft(j, s.pc)))))
  {
  }

  lemma {:induction false} SyncDriveInv(j: Job, s: SyncRun)
    requires j.Valid() && j.InRange(s.pc) && SyncInv(j, s)
    ensures SyncDrive(j, s).Ok? && SyncDrive(j, s).value.pc.Finished? && SyncInv(j, SyncDrive(j, s).value)
    decreases Phase(s.pc), LayersLeft(j, s.pc), StepsLeft(j, s.pc)
  {
    if !s.pc.Finished? {
      hide SyncInv, SyncNext, LayersLeft, StepsLeft, Phase;
      SyncNextInv(j, s);
      SyncDescends(j, s);
      SyncDriveInv(j, SyncNext(j, s).value);
    }
  }

  /** The synchronous handler returns every pushed tensor, whatever is saved. */
  lemma SyncReturnsPushed(j: Job)
    requires j.Valid()
    ensures SyncDrive(j, SYNC_START).Ok?
    ensures var outs := SyncDrive(j, SYNC_START).value.outs;
            AllReturned(j, outs) && forall p :: p in outs <==> IsPos(j, p) && p.i in j.pops[p.g]
  {
    assert forall p :: !PushedPos(j, 0, 0, p);
    SyncDriveInv(j, SYNC_START);
    hide SyncDrive, SyncHolds, SyncPushed, AllReturned;
    assert j.pops[0][..|j.pops[0]|] == j.pops[0];
    assert forall p :: PoppedPos(j, 0, |j.pops[0]|, p) <==> IsPos(j, p) && p.i in j.pops[p.g];
  }

  /** The state after n steps of the synchronous handler, or the exception before. */
  ghost function SyncAfter(j: Job, n: nat): (r: Result<SyncRun, Error>)
    requires j.Valid()
    ensures r.Ok? ==> j.InRange(r.value.pc)
  {
    if n == 0 then Ok(SYNC_START) else
    var r := SyncAfter(j, n - 1);
    if r.Err? then r else
    var s := SyncNext(j, r.value);
    if s.Ok? && !j.InRange(s.value.pc) then Err(BadGroup) else s
  }

  lemma {:induction false} SyncAfterInv(j: Job, n: nat)
    requires j.Valid()
    ensures SyncAfter(j, n).Ok? && SyncInv(j, SyncAfter(j, n).value)
  {
    hide SyncInv, SyncNext;
    if n == 0 {
      SyncStartInv(j);
    } else {
      SyncAfterInv(j, n - 1);
      SyncNextInv(j, SyncAfter(j, n - 1).value);
    }
  }

  lemma SyncStartInv(j: Job)
    requires j.Valid()
    ensures j.InRange(SYNC_START.pc) && SyncInv(j, SYNC_START)
  {
    assert forall p :: !PushedPos(j, 0, 0, p);
  }

  /** In every reachable state a tensor that the synchronous handler holds is in CPU memory exactly if
      its layer is one of the offloaded groups and the filter wants it. */
  lemma SyncOffloadsAtOnce(j: Job, n: nat, t: Tag)
    requires j.Valid() && SyncAfter(j, n).Ok? && t in SyncAfter(j, n).value.h.state
    ensures t.group < |j.program| && t.count < |j.program[t.group]|
    ensures SyncAfter(j, n).value.h.state[t].Backed? <==> t.group < j.groups && j.program[t.group][t.count].wanted
  {
    SyncAfterInv(j, n);
    hide SyncAfter, SyncNext, AllReturned;
    var s := SyncAfter(j, n).value;
    assert Pos(t.group, t.count) in s.ids;
  }

  /** A tag that the synchronous handler holds and that the iteration has still to push. */
  ghost predicate SyncAhead(j: Job, s: SyncRun, t: Tag)
    requires j.Valid() && j.InRange(s.pc)
  {
    && s.pc.Forward? && s.h.group == s.pc.g && s.h.count == s.pc.i
    && t in s.h.state && t.group < |j.program| && t.count < |j.program[t.group]|
    && (t.group > s.pc.g || (t.group == s.pc.g && t.count >= s.pc.i))
  }

  lemma SyncAheadNext(j: Job, s: SyncRun, t: Tag)
    requires j.Valid() && j.InRange(s.pc) && SyncAhead(j, s, t)
    ensures !s.pc.Finished?
    ensures var r := SyncNext(j, s); r.Ok? ==> j.InRange(r.value.pc) && SyncAhead(j, r.value, t)
  {
  }

  /** On the synchronous handler too, an iteration that comes to push a tag that is still there
      raises. */
  lemma {:induction false} SyncLeftoverRaises(j: Job, s: SyncRun, t: Tag)
    requires j.Valid() && j.InRange(s.pc) && SyncAhead(j, s, t)
    ensures SyncDrive(j, s).Err?
    decreases Phase(s.pc), LayersLeft(j, s.pc), StepsLeft(j, s.pc)
  {
    hide SyncNext, SyncAhead, LayersLeft, StepsLeft, Phase;
    SyncAheadNext(j, s, t);
    SyncDescends(j, s);
    if SyncNext(j, s).Ok? {
      SyncLeftoverRaises(j, SyncNext(j, s).value, t);
    }
  }

  ghost predicate Agree(c: Config, j: Job)
    requires j.Valid()
  {
    var a, b := Drive(c, j, START), SyncDrive(j, SYNC_START);
    a.Ok? && b.Ok? && a.value.outs.Keys == b.value.outs.Keys &&
    forall p | p in b.value.outs && p in a.value.outs :: a.value.outs[p].SameValue(b.value.outs[p])
  }

  /** Both handlers finish and agree at every pop exactly when in every moved group the copies fit
      and each tensor asked for has the data of the first under its key. */
  lemma AsyncRefinesSync(c: Config, j: Job)
    requires j.Valid() && j.Settings(c)
    ensures Agree(c, j) <==> AllFit(c, j) && PoppedAgree(c, j)
  {
    PopsReturnPushed(c, j);
    SyncReturnsPushed(j);
    IterationFinishes(c, j);
    var a, b := Drive(c, j, START), SyncDrive(j, SYNC_START);
    if a.Ok? {
      SameKeys(c, j, a.value, b.value.outs);
      hide Drive, SyncDrive, PoppedAgree, AllFit, Inv;
      assert forall p | p in b.value.outs :: b.value.outs[p].SameValue(j.program[p.g][p.i].tensor);
    }
  }

  lemma SameKeys(c: Config, j: Job, s: Run, outs: map<Pos, Tensor>)
    requires j.Valid() && j.Settings(c) && s.pc.Finished? && Inv(c, j, s)
    requires forall p :: p in outs <==> IsPos(j, p) && p.i in j.pops[p.g]
    ensures s.outs.Keys == outs.Keys && forall p | p in s.outs :: IsPos(j, p)
  {
    hide BackwardInv, IdsUpTo, OffloadLog, Reloads;
    assert j.pops[0][..|j.pops[0]|] == j.pops[0];
    forall p
      ensures p in s.outs <==> p in outs
    {
      assert PoppedPos(j, 0, |j.pops[0]|, p) <==> IsPos(j, p) && p.i in j.pops[p.g];
    }
  }
}
