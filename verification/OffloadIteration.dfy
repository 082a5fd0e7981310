/** The main results about the asynchronous handler, for every schedule of an iteration. */
module OffloadIteration {
  import opened Collections
  import opened OffloadGroups
  import opened OffloadHandler
  import opened OffloadInvariant
  import opened OffloadSchedule
  import opened OffloadTheorems
  import opened Tensors
  import WindowMap
  import opened Wrappers

  // ----- to the end of an iteration

  ghost predicate Pending(c: Config, pc: PC, q: nat)
    requires q in c.window
  {
    match pc
    case Forward(_, _) => true
    case Backward(g, _) => c.window[q] < g
    case Finished => false
  }

  ghost predicate PendingFits(c: Config, j: Job, pc: PC)
    requires j.Valid() && j.Settings(c)
  {
    forall q: nat | q < c.groups && Offloads(c, q) && Pending(c, pc, q) :: Fits(Stored(j.program[q]))
  }

  lemma PendingNext(c: Config, j: Job, pc: PC, pc': PC)
    requires j.Valid() && j.Settings(c) && j.InRange(pc)
    requires Committing(j, pc) >= 0 ==> pc' == Backward(Committing(j, pc), 0)
    requires Committing(j, pc) < 0 ==>
               match pc
               case Forward(_, _) => pc'.Forward?
               case Backward(g, k) => pc' == Backward(g, k + 1) || (g == 0 && pc' == Finished)
               case Finished => pc' == Finished
    ensures PendingFits(c, j, pc) <==>
            (Committing(j, pc) >= 0 ==> FitsAt(c, j, Committing(j, pc))) && PendingFits(c, j, pc')
  {
    assert forall q: nat | q < c.groups :: 0 <= c.window[q] < |j.program|;
    hide Fits, Stored, Offloads;
  }

  lemma NextPc(c: Config, j: Job, s: Run)
    requires j.Valid() && j.InRange(s.pc) && Next(c, j, s).Ok?
    ensures var pc' := Next(c, j, s).value.pc;
            && (Committing(j, s.pc) >= 0 ==> pc' == Backward(Committing(j, s.pc), 0))
            && (Committing(j, s.pc) < 0 ==>
                  match s.pc
                  case Forward(_, _) => pc'.Forward?
                  case Backward(g, k) => pc' == Backward(g, k + 1) || (g == 0 && pc' == Finished)
                  case Finished => pc' == Finished)
  {
  }

  lemma Descends(c: Config, j: Job, s: Run)
    requires j.Valid() && j.InRange(s.pc) && !s.pc.Finished?
    ensures var r := Next(c, j, s);
            r.Ok? ==>
              && j.InRange(r.value.pc)
              && (Phase(r.value.pc) < Phase(s.pc) ||
                  (Phase(r.value.pc) == Phase(s.pc) &&
                   (LayersLeft(j, r.value.pc) < LayersLeft(j, s.pc) ||
                    (LayersLeft(j, r.value.pc) == LayersLeft(j, s.pc)
                      && StepsLeft(j, r.value.pc) < StepsLeft(j, s.pc)))))
  {
  }

  lemma StepInv(c: Config, j: Job, s: Run)
    requires j.Valid() && j.Settings(c) && j.InRange(s.pc) && Inv(c, j, s) && !s.pc.Finished?
    ensures var r := Next(c, j, s);
            if r.Ok?
            then j.InRange(r.value.pc) && Inv(c, j, r.value) &&
                 (PendingFits(c, j, s.pc) <==> PendingFits(c, j, r.value.pc))
            else !PendingFits(c, j, s.pc)
  {
    hide Inv, FitsAt, PendingFits;
    NextInv(c, j, s);
    var r := Next(c, j, s);
    if r.Ok? {
      NextPc(c, j, s);
      PendingNext(c, j, s.pc, r.value.pc);
    } else {
      FailedFits(c, j, s.pc);
    }
  }

  lemma DriveUnfolds(c: Config, j: Job, s: Run)
    requires j.Valid() && j.InRange(s.pc)
    ensures if s.pc.Finished? then Drive(c, j, s) == Ok(s)
            else if Next(c, j, s).Err? then Drive(c, j, s) == Next(c, j, s)
            else j.InRange(Next(c, j, s).value.pc) && Drive(c, j, s) == Drive(c, j, Next(c, j, s).value)
  {
    hide Push, CommitForward, CommitBackward, Pop;
  }

  lemma {:induction false} DriveInv(c: Config, j: Job, s: Run)
    requires j.Valid() && j.Settings(c) && j.InRange(s.pc) && Inv(c, j, s)
    ensures Drive(c, j, s).Ok? <==> PendingFits(c, j, s.pc)
    ensures Drive(c, j, s).Ok? ==> Drive(c, j, s).value.pc.Finished? && Inv(c, j, Drive(c, j, s).value)
    decreases Phase(s.pc), LayersLeft(j, s.pc), StepsLeft(j, s.pc)
  {
    if s.pc.Finished? {
      DriveUnfolds(c, j, s);
    } else {
      hide *;
      DriveUnfolds(c, j, s);
      StepInv(c, j, s);
      Descends(c, j, s);
      if Next(c, j, s).Ok? {
        DriveInv(c, j, Next(c, j, s).value);
      }
    }
  }

  lemma FailedFits(c: Config, j: Job, pc: PC)
    requires j.Valid() && j.Settings(c) && j.InRange(pc)
    requires Committing(j, pc) >= 0 && !FitsAt(c, j, Committing(j, pc))
    ensures !PendingFits(c, j, pc)
  {
    PendingNext(c, j, pc, Backward(Committing(j, pc), 0));
  }

  lemma StartRun(c: Config, j: Job)
    requires j.Valid() && j.Settings(c)
    ensures j.InRange(START.pc) && Inv(c, j, START)
  {
    StartInv(c, j);
    hide ForwardInv;
    assert forall p :: !PushedPos(j, 0, 0, p);
  }

  /** The copies of every moved group have the sizes that its tensors ask for. */
  ghost predicate AllFit(c: Config, j: Job)
    requires j.Valid() && j.Settings(c)
  {
    forall q: nat | Offloads(c, q) :: LayerFits(j.program[q])
  }

  /** An iteration runs to its end exactly when every moved group's copies have the sizes that its
      tensors ask for; no other assertion or lookup can fail. */
  lemma IterationFinishes(c: Config, j: Job)
    requires j.Valid() && j.Settings(c)
    ensures Drive(c, j, START).Ok? <==> AllFit(c, j)
    ensures Drive(c, j, START).Ok? ==> Drive(c, j, START).value.pc.Finished? && Inv(c, j, Drive(c, j, START).value)
  {
    StartRun(c, j);
    DriveInv(c, j, START);
    hide Fits, LayerFits, Stored, Inv, Drive;
    forall q: nat | Offloads(c, q)
      ensures LayerFits(j.program[q]) <==> Fits(Stored(j.program[q]))
    {
      FitsIff(j.program[q]);
    }
  }

  // ----- what the pops return

  ghost predicate AllReturned(j: Job, outs: map<Pos, Tensor>)
  {
    forall p | p in outs && IsPos(j, p) :: outs[p].SameValue(j.program[p.g][p.i].tensor)
  }

  /** The group of the tensor is one that the handler moves, and the tensor is not filtered out. */
  predicate IsMoved(c: Config, j: Job, p: Pos)
    requires IsPos(j, p)
  {
    var x := j.program[p.g][p.i];
    !x.stray && x.wanted && p.g < c.groups && (p.g == 0 || c.groups < c.layers)
  }

  /** The first tensor of its layer that shares a copy with the tensor. */
  function CopyOf(j: Job, p: Pos): Tensor
    requires IsPos(j, p) && Shares(j.program[p.g][p.i], j.program[p.g][p.i])
  {
    var xs := j.program[p.g];
    xs[FirstShared(xs, xs[p.i])].tensor
  }

  /** What is popped for tensor p if the handler moved it is not another tensor's data. */
  predicate AgreesWithFirst(c: Config, j: Job, p: Pos)
    requires IsPos(j, p)
  {
    IsMoved(c, j, p) ==> CopyOf(j, p).data == j.program[p.g][p.i].tensor.data
  }

  /** Each tensor of a moved group that is asked for has the data of the first that shares its copy. */
  ghost predicate PoppedAgree(c: Config, j: Job)
    requires j.Valid()
  {
    forall p | IsPos(j, p) && p.i in j.pops[p.g] :: AgreesWithFirst(c, j, p)
  }

  ghost predicate AllCoherent(c: Config, j: Job)
    requires j.Valid() && j.Settings(c)
  {
    forall q: nat | Offloads(c, q) :: LayerCoherent(j.program[q])
  }

  /** A tensor that was moved comes back at another address with the elements of the copy; any other
      is the one that was pushed. */
  lemma OutIs(c: Config, j: Job, p: Pos)
    requires IsPos(j, p)
    ensures var t := j.program[p.g][p.i].tensor;
      Out(c, j, p) == if IsMoved(c, j, p) then Tensor(FRESH, t.dtype, t.shape, CopyOf(j, p).data) else t
  {
    if j.program[p.g][p.i].Kept() {
      IdIsTag(j, p);
      FirstSharedIsCopied(j.program[p.g], j.program[p.g][p.i]);
    }
  }

  /** What every pop of an iteration that runs to its end returns. */
  lemma WhatPopsReturn(c: Config, j: Job)
    requires j.Valid() && j.Settings(c) && Drive(c, j, START).Ok?
    ensures var outs := Drive(c, j, START).value.outs;
      && (forall p :: p in outs <==> IsPos(j, p) && p.i in j.pops[p.g])
      && (forall p | p in outs && IsPos(j, p) ::
            var t := j.program[p.g][p.i].tensor;
            outs[p] == if IsMoved(c, j, p) then Tensor(FRESH, t.dtype, t.shape, CopyOf(j, p).data) else t)
  {
    IterationFinishes(c, j);
    var outs := Drive(c, j, START).value.outs;
    hide Drive, BackwardInv, IdsUpTo, OffloadLog, Reloads, Out, IsMoved, CopyOf;
    assert j.pops[0][..|j.pops[0]|] == j.pops[0];
    forall p
      ensures p in outs <==> IsPos(j, p) && p.i in j.pops[p.g]
    {
      assert PoppedPos(j, 0, |j.pops[0]|, p) <==> IsPos(j, p) && p.i in j.pops[p.g];
    }
    forall p | p in outs && IsPos(j, p)
      ensures outs[p] == Out(c, j, p)
    {
    }
    forall p | IsPos(j, p) {
      OutIs(c, j, p);
    }
  }

  /** Nothing raises and each pop of an iteration returns the pushed tensor exactly when in every
      moved group the copies fit and each tensor asked for has the data of the first that shares its
      copy. */
  lemma PopsReturnPushed(c: Config, j: Job)
    requires j.Valid() && j.Settings(c)
    ensures var r := Drive(c, j, START);
            (r.Ok? && AllReturned(j, r.value.outs)) <==> AllFit(c, j) && PoppedAgree(c, j)
  {
    hide Drive, Inv, AllFit, IsMoved, CopyOf;
    IterationFinishes(c, j);
    if Drive(c, j, START).Ok? {
      WhatPopsReturn(c, j);
    }
  }

  lemma CoherentPoppedAgree(c: Config, j: Job)
    requires j.Valid() && j.Settings(c)
    ensures AllCoherent(c, j) ==> AllFit(c, j) && PoppedAgree(c, j)
    ensures j.Complete() && PoppedAgree(c, j) ==> AllCoherent(c, j)
  {
    hide LayerCoherent, LayerFits, FirstShared;
    if AllCoherent(c, j) {
      forall q: nat | Offloads(c, q)
        ensures LayerFits(j.program[q])
      {
        CoherentFits(j.program[q]);
      }
      forall p | IsPos(j, p) && IsMoved(c, j, p)
        ensures CopyOf(j, p).data == j.program[p.g][p.i].tensor.data
      {
        CoherentIffFirstAgrees(j.program[p.g]);
      }
    }
    if j.Complete() && PoppedAgree(c, j) {
      forall q: nat | Offloads(c, q)
        ensures LayerCoherent(j.program[q])
      {
        AgreedCoherent(c, j, q);
      }
    }
  }

  lemma AgreedCoherent(c: Config, j: Job, q: nat)
    requires j.Valid() && j.Complete() && PoppedAgree(c, j) && q < |j.program| && Offloads(c, q)
    ensures LayerCoherent(j.program[q])
  {
    hide FirstShared;
    var xs := j.program[q];
    forall i | 0 <= i < |xs| && Shares(xs[i], xs[i])
      ensures xs[FirstShared(xs, xs[i])].tensor.data == xs[i].tensor.data
    {
      assert xs[i].Kept();
      assert AgreesWithFirst(c, j, Pos(q, i));
    }
    CoherentIffFirstAgrees(xs);
  }

  /** For that it is enough, whatever is asked for, that in every moved group kept tensors with one
      address and one element type have the same elements; and it is needed when every kept tensor
      is asked for. */
  lemma CoherentReturns(c: Config, j: Job)
    requires j.Valid() && j.Settings(c)
    ensures var r := Drive(c, j, START);
            && (AllCoherent(c, j) ==> r.Ok? && AllReturned(j, r.value.outs))
            && (j.Complete() && r.Ok? && AllReturned(j, r.value.outs) ==> AllCoherent(c, j))
  {
    hide *;
    PopsReturnPushed(c, j);
    CoherentPoppedAgree(c, j);
  }

  /** An iteration of three layers, the first of which saves two tensors, with two groups, one
      fewer than layers. */
  function TwoViews(a: Tensor, b: Tensor): Job {
    Job(2, [[Saved(a, false, true), Saved(b, false, true)], [], []], [[0, 1], [], []])
  }

  const TWO_OF_THREE := Config(2, 3, map[0 := 1, 1 := 2])

  lemma TwoViewsIsJob(a: Tensor, b: Tensor)
    requires a.WellFormed() && b.WellFormed()
    ensures TwoViews(a, b).Valid() && TwoViews(a, b).Complete() && TwoViews(a, b).Settings(TWO_OF_THREE)
  {
  }

  /** Two tensors at different addresses come back, as different tensors. */
  lemma TwoBuffersComeBack(a: Tensor, b: Tensor)
    requires a.WellFormed() && b.WellFormed() && a.ptr != b.ptr
    ensures TwoViews(a, b).Valid() && TwoViews(a, b).Settings(TWO_OF_THREE)
    ensures var r := Drive(TWO_OF_THREE, TwoViews(a, b), START);
      && r.Ok? && Pos(0, 0) in r.value.outs && Pos(0, 1) in r.value.outs
      && r.value.outs[Pos(0, 0)] == a.(ptr := FRESH) && r.value.outs[Pos(0, 1)] == b.(ptr := FRESH)
  {
    var j := TwoViews(a, b);
    TwoViewsIsJob(a, b);
    assert AllCoherent(TWO_OF_THREE, j);
    CoherentReturns(TWO_OF_THREE, j);
    hide Drive;
    WhatPopsReturn(TWO_OF_THREE, j);
    var x, y := Pos(0, 0), Pos(0, 1);
    assert IsPos(j, x) && IsPos(j, y) && 0 in j.pops[0] && 1 in j.pops[0];
  }

  /** A matrix and its transpose share the address and the element type: the iteration does not
      return both as they were pushed. */
  lemma TransposeReturnsOther()
    ensures var a, b := Tensor(0, 0, [2, 2], [1, 2, 3, 4]), Tensor(0, 0, [2, 2], [1, 3, 2, 4]);
      var j := TwoViews(a, b);
      && j.Valid() && j.Settings(TWO_OF_THREE)
      && var r := Drive(TWO_OF_THREE, j, START); !(r.Ok? && AllReturned(j, r.value.outs))
  {
    var a, b := Tensor(0, 0, [2, 2], [1, 2, 3, 4]), Tensor(0, 0, [2, 2], [1, 3, 2, 4]);
    assert [2, 2][1..] == [2] && [2][1..] == [];
    assert Numel([2, 2]) == 4;
    var j := TwoViews(a, b);
    TwoViewsIsJob(a, b);
    var xs := j.program[0];
    assert Shares(xs[0], xs[1]) && a.data[1] != b.data[1];
    assert !LayerCoherent(xs);
    assert Offloads(TWO_OF_THREE, 0);
    CoherentReturns(TWO_OF_THREE, j);
  }

  /** A vector and the view of its first element: the reload of the view raises. */
  lemma PartialViewRaises()
    ensures var a, b := Tensor(0, 0, [2], [1, 2]), Tensor(0, 0, [1], [1]);
      var j := TwoViews(a, b);
      && j.Valid() && j.Settings(TWO_OF_THREE) && Drive(TWO_OF_THREE, j, START).Err?
  {
    var a, b := Tensor(0, 0, [2], [1, 2]), Tensor(0, 0, [1], [1]);
    assert [2][1..] == [] && [1][1..] == [];
    assert Numel([2]) == 2 && Numel([1]) == 1;
    var j := TwoViews(a, b);
    TwoViewsIsJob(a, b);
    var xs := j.program[0];
    assert Shares(xs[0], xs[1]) && FirstShared(xs, xs[1]) == 0;
    assert !LayerFits(xs);
    assert Offloads(TWO_OF_THREE, 0);
    IterationFinishes(TWO_OF_THREE, j);
  }

  // ----- what an iteration leaves behind

  /** Counters and group map are back to their initial values, and exactly the tags that were
      never asked for are left; so the handler is as new exactly when every tag was. */
  lemma IterationResets(c: Config, j: Job)
    requires j.Valid() && j.Settings(c) && Drive(c, j, START).Ok?
    ensures var s := Drive(c, j, START).value;
            && s.h.group == 0 && s.h.count == 0 && s.h.done == 0 && s.h.mapping == map[]
            && (forall t :: t in s.h.state <==> IsTag(j, t) && t !in TagsOf(j, s.outs.Keys))
            && (s.h == EMPTY <==> j.Complete())
  {
    IterationFinishes(c, j);
    var s := Drive(c, j, START).value;
    EndState(c, j, s);
  }

  lemma EndState(c: Config, j: Job, s: Run)
    requires j.Valid() && j.Settings(c) && BackwardRun(c, j, s, 0, |j.pops[0]|)
    ensures s.h.group == 0 && s.h.count == 0 && s.h.done == 0 && s.h.mapping == map[]
    ensures forall t :: t in s.h.state <==> IsTag(j, t) && t !in TagsOf(j, s.outs.Keys)
    ensures s.h == EMPTY <==> j.Complete()
  {
    assert s.h.mapping == map[];
    if j.Complete() {
      forall t | IsTag(j, t)
        ensures t in TagsOf(j, s.outs.Keys)
      {
        EveryTagPopped(c, j, s.outs, t);
      }
      hide BackwardSlot, TagsOf;
      assert s.h.state == map[] && s.h.buf == map[];
      NothingOrdered(s.h.order, s.h.state);
    }
    if !j.Complete() {
      var t := IncompleteLeaves(c, j, s);
    }
  }

  lemma NothingOrdered(order: seq<Tag>, state: map<Tag, Slot>)
    requires forall t :: t in order <==> t in state
    ensures state == map[] ==> order == []
  {
    if |order| > 0 {
      assert order[0] in state;
    }
  }

  lemma EveryTagPopped(c: Config, j: Job, outs: map<Pos, Tensor>, t: Tag)
    requires j.Valid() && j.Complete() && OutsUpTo(c, j, 0, |j.pops[0]|, outs) && IsTag(j, t)
    ensures t in TagsOf(j, outs.Keys)
  {
    var xs := j.program[t.group];
    assert xs[..|xs|] == xs;
    var i := TagHasPos(j, t, |xs|);
    assert j.pops[0][..|j.pops[0]|] == j.pops[0];
    assert PoppedPos(j, 0, |j.pops[0]|, Pos(t.group, i));
  }

  /** The tag of a kept tensor that has not been popped is not a tag of a popped one. */
  lemma UnpoppedTag(c: Config, j: Job, g: nat, k: nat, outs: map<Pos, Tensor>, p: Pos) returns (t: Tag)
    requires j.Valid() && OutsUpTo(c, j, g, k, outs)
    requires IsPos(j, p) && j.program[p.g][p.i].Kept() && !PoppedPos(j, g, k, p)
    ensures IsTag(j, t) && t.group == p.g && t !in TagsOf(j, outs.Keys)
  {
    IdIsTag(j, p);
    t := IdOf(j, p).tag;
    forall x | x in outs.Keys && IsPos(j, x) && IdOf(j, x).Tagged?
      ensures IdOf(j, x).tag != t
    {
      if IdOf(j, x) == IdOf(j, p) {
        IdsDiffer(j, p, x);
      }
    }
  }

  /** An iteration that does not ask for every kept tensor leaves a tag. */
  lemma IncompleteLeaves(c: Config, j: Job, s: Run) returns (t: Tag)
    requires j.Valid() && j.Settings(c) && BackwardRun(c, j, s, 0, |j.pops[0]|) && !j.Complete()
    ensures IsTag(j, t) && t in s.h.state
  {
    var g, i :| 0 <= g < |j.program| && 0 <= i < |j.program[g]| && j.program[g][i].Kept() && i !in j.pops[g];
    assert j.pops[0][..|j.pops[0]|] == j.pops[0];
    t := UnpoppedTag(c, j, 0, |j.pops[0]|, s.outs, Pos(g, i));
  }

  // ----- when each group travels

  lemma {:induction false} OffloadLogAt(c: Config, n: nat)
    requires WindowMap.Good(c.groups, c.layers, c.window) && n <= c.groups
    ensures |OffloadLog(c, n)| == n
    ensures forall q | 0 <= q < n :: OffloadLog(c, n)[q] == (q, if q == 0 then 0 else c.window[q - 1])
  {
    if n > 0 {
      OffloadLogAt(c, n - 1);
      var before := OffloadLog(c, n - 1);
      var last: (nat, nat) := (n - 1, if n == 1 then 0 else c.window[n - 2]);
      assert OffloadLog(c, n) == before + [last];
      hide OffloadLog, WindowMap.Good;
      forall q | 0 <= q < n
        ensures (before + [last])[q] == (q, if q == 0 then 0 else c.window[q - 1])
      {
        assert q < n - 1 ==> (before + [last])[q] == before[q];
      }
    }
  }

  lemma {:induction false} ReloadLogAt(c: Config, r: nat)
    requires WindowMap.Good(c.groups, c.layers, c.window) && r <= c.groups
    ensures |ReloadLog(c, r)| == c.groups - r
    ensures forall k | 0 <= k < c.groups - r :: ReloadLog(c, r)[k] == (c.groups - 1 - k, c.window[c.groups - 1 - k])
    decreases c.groups - r
  {
    if r < c.groups {
      ReloadLogAt(c, r + 1);
    }
  }

  lemma EndLogs(c: Config, j: Job)
    requires j.Valid() && j.Settings(c) && Drive(c, j, START).Ok?
    ensures var s := Drive(c, j, START).value;
      s.offloads == OffloadLog(c, c.groups) && s.reloads == ReloadLog(c, 0)
  {
    IterationFinishes(c, j);
    var s := Drive(c, j, START).value;
    hide BackwardInv, IdsUpTo, OutsUpTo, Drive, OffloadLog, ReloadLog;
    var r: nat :| ReloadedDownTo(c, 0, r) && s.reloads == ReloadLog(c, r);
    assert c.window[0] >= 0;
    assert r == 0;
  }

  /** In an iteration each group is bulk-offloaded once, in order, when the window of the one before
      closes, which is not before its own pushes are over unless groups and layers coincide; and
      bulk-reloaded once, in reverse, by a backward commit no later than the one before its pops. */
  lemma EachGroupTravelsOnce(c: Config, j: Job)
    requires j.Valid() && j.Settings(c) && Drive(c, j, START).Ok?
    ensures var s := Drive(c, j, START).value;
            && |s.offloads| == c.groups && |s.reloads| == c.groups
            && (forall q | 0 <= q < c.groups :: s.offloads[q] == (q, if q == 0 then 0 else c.window[q - 1]))
            && (c.groups < c.layers ==> forall q | 0 <= q < c.groups :: q <= s.offloads[q].1)
            && (forall q | 0 <= q < c.groups :: s.reloads[c.groups - 1 - q] == (q, c.window[q]) && q <= c.window[q])
  {
    EndLogs(c, j);
    OffloadLogAt(c, c.groups);
    ReloadLogAt(c, 0);
    var s := Drive(c, j, START).value;
    hide Drive, OffloadLog, ReloadLog;
    forall q | 0 <= q < c.groups
      ensures s.reloads[c.groups - 1 - q] == (q, c.window[q])
    {
      var k := c.groups - 1 - q;
      assert s.reloads[k] == (c.groups - 1 - k, c.window[c.groups - 1 - k]);
    }
  }

  // ----- every reachable state

  lemma {:induction false} AfterInv(c: Config, j: Job, n: nat)
    requires j.Valid() && j.Settings(c) && After(c, j, n).Ok?
    ensures j.InRange(After(c, j, n).value.pc) && Inv(c, j, After(c, j, n).value)
  {
    hide Inv, Next;
    if n == 0 {
      StartRun(c, j);
    } else {
      AfterInv(c, j, n - 1);
      NextInv(c, j, After(c, j, n - 1).value);
    }
  }

  /** The end of an iteration is one of the states reached step by step. */
  lemma {:induction false} DriveIsAfter(c: Config, j: Job, s: Run, n: nat) returns (m: nat)
    requires j.Valid() && After(c, j, n) == Ok(s)
    ensures j.InRange(s.pc) && After(c, j, m) == Drive(c, j, s)
    decreases Phase(s.pc), LayersLeft(j, s.pc), StepsLeft(j, s.pc)
  {
    m := n;
    hide Next;
    if !s.pc.Finished? {
      Descends(c, j, s);
      DriveUnfolds(c, j, s);
      assert After(c, j, n + 1) == Next(c, j, s);
      m := n + 1;
      if Next(c, j, s).Ok? {
        m := DriveIsAfter(c, j, Next(c, j, s).value, n + 1);
      }
    }
  }

  /** The groups with a tensor that the handler still holds on the device. */
  ghost function DeviceGroups(h: Handler): set<nat> {
    (set t | t in h.state && h.state[t].OnDevice? :: t.group) +
    (set t | t in h.buf && h.buf[t].Some? :: t.group)
  }

  lemma ForwardDevice(c: Config, j: Job, h: Handler, g: nat, i: nat)
    requires j.Valid() && j.Settings(c) && j.InRange(Forward(g, i)) && ForwardInv(c, j, h, g, i)
    requires c.groups + 1 == c.layers
    ensures forall q | q in DeviceGroups(h) :: q == g || q == g - 1
  {
    hide ForwardState, ForwardBuf, ForwardMapping, TagsUpTo;
    forall t | t in h.state && h.state[t].OnDevice?
      ensures t.group == g || t.group == g - 1
    {
      ForwardStateDevice(c, j, h.state, g, h.count, t);
    }
    forall t | t in h.buf && h.buf[t].Some?
      ensures t.group == g || t.group == g - 1
    {
      ForwardBufDevice(c, j, h.buf, g, h.count, t);
    }
  }

  lemma ForwardStateDevice(c: Config, j: Job, state: map<Tag, Slot>, g: nat, n: nat, t: Tag)
    requires WindowMap.Good(c.groups, c.layers, c.window) && |j.program| == c.layers
    requires ForwardState(c, j, state, g, n) && c.groups + 1 == c.layers
    requires t in state && state[t].OnDevice? && g <= |j.program| && (g == |j.program| ==> n == 0)
    ensures t.group == g || t.group == g - 1
  {
    assert state[t] == ForwardSlot(c, j, t, g);
    if 0 < t.group < c.groups {
      var p: nat := t.group - 1;
      WindowOneLess(c, p);
    }
  }

  lemma ForwardBufDevice(c: Config, j: Job, buf: map<Tag, Option<Tensor>>, g: nat, n: nat, t: Tag)
    requires WindowMap.Good(c.groups, c.layers, c.window)
    requires ForwardBuf(c, j, buf, g, n) && c.groups + 1 == c.layers
    requires t in buf && buf[t].Some?
    ensures t.group == g || t.group == g - 1
  {
    WindowOneLess(c, t.group);
  }

  lemma {:induction false} WindowOneLess(c: Config, q: nat)
    requires WindowMap.Good(c.groups, c.layers, c.window) && c.groups + 1 == c.layers && q < c.groups
    ensures c.window[q] == q + 1
    decreases c.groups - q
  {
    if q + 1 < c.groups {
      WindowOneLess(c, q + 1);
      assert c.window[q] < c.window[q + 1];
    }
  }

  /** Layer q saves a tensor that is never asked for. */
  ghost predicate Unclaimed(j: Job, q: nat)
    requires j.Valid()
  {
    q < |j.program| && exists i :: 0 <= i < |j.program[q]| && j.program[q][i].Kept() && i !in j.pops[q]
  }

  /** The layers above g that leave a tensor behind. */
  ghost function LeftBehind(j: Job, g: nat): (r: set<nat>)
    requires j.Valid()
    ensures forall q | q in r :: g < q < |j.program|
  {
    set q | q in LayersAbove(g, |j.program|) && Unclaimed(j, q)
  }

  function LayersAbove(g: nat, l: nat): (r: set<nat>)
    ensures forall q: nat :: q in r <==> g < q < l
  {
    if l == 0 then {} else LayersAbove(g, l - 1) + (if g < l - 1 then {l - 1} else {})
  }

  /** The layer that the run is at; on the way forward nothing has been left behind. */
  ghost function Behind(j: Job, pc: PC): set<nat>
    requires j.Valid()
  {
    match pc
    case Forward(_, _) => {}
    case Backward(g, _) => LeftBehind(j, g)
    case Finished => LeftBehind(j, 0)
  }

  lemma BackwardDevice(c: Config, j: Job, s: Run, g: nat, k: nat)
    requires j.Valid() && j.Settings(c) && BackwardRun(c, j, s, g, k)
    requires c.groups + 1 == c.layers
    ensures forall q | q in DeviceGroups(s.h) :: q == g || q == g - 1 || q in LeftBehind(j, g)
    ensures LeftBehind(j, g) <= DeviceGroups(s.h)
  {
    hide OutsUpTo, IdsUpTo, Reloads, OffloadLog, BackwardInv, Unclaimed, TagsOf, IsTag;
    forall q | q in DeviceGroups(s.h)
      ensures q == g || q == g - 1 || q in LeftBehind(j, g)
    {
      var t := DeviceTag(c, j, s.h, g, TagsOf(j, s.outs.Keys), q);
      if q > g {
        LaterTagLeft(c, j, s.outs, g, k, t);
      }
    }
    forall q | q in LeftBehind(j, g)
      ensures q in DeviceGroups(s.h)
    {
      var t := LeftTag(c, j, s.outs, g, k, q);
      OnDeviceFrom(c, j, s.h, g, TagsOf(j, s.outs.Keys), t);
    }
  }

  /** The tag by which the device holds a group. */
  lemma DeviceTag(c: Config, j: Job, h: Handler, g: nat, popped: set<Tag>, q: nat) returns (t: Tag)
    requires j.Valid() && j.Settings(c) && c.groups + 1 == c.layers && g <= |j.program|
    requires BackwardInv(c, j, h, g, popped) && q in DeviceGroups(h)
    ensures IsTag(j, t) && t !in popped && t.group == q && q < |j.program| && q + 1 >= g
  {
    hide BackwardMapping, BackwardDone, Stored, TensorAt;
    t :| t in h.state && h.state[t].OnDevice? && t.group == q;
    assert h.state[t] == BackwardSlot(c, j, t, g);
    if q < c.groups {
      WindowOneLess(c, q);
    }
  }

  /** From the commit of the layer before its own on, a tag that is still there is on the device. */
  lemma OnDeviceFrom(c: Config, j: Job, h: Handler, g: nat, popped: set<Tag>, t: Tag)
    requires j.Valid() && j.Settings(c) && c.groups + 1 == c.layers && g <= |j.program|
    requires BackwardInv(c, j, h, g, popped) && IsTag(j, t) && t !in popped && t.group + 1 >= g
    ensures t in h.state && h.state[t].OnDevice? && t.group in DeviceGroups(h)
  {
    assert h.state[t] == BackwardSlot(c, j, t, g);
    if t.group < c.groups {
      WindowOneLess(c, t.group);
    }
  }

  lemma LaterTagLeft(c: Config, j: Job, outs: map<Pos, Tensor>, g: nat, k: nat, t: Tag)
    requires j.Valid() && OutsUpTo(c, j, g, k, outs) && IsTag(j, t) && t.group > g
    requires t !in TagsOf(j, outs.Keys)
    ensures Unclaimed(j, t.group)
  {
    var xs := j.program[t.group];
    assert xs[..|xs|] == xs;
    var i := TagHasPos(j, t, |xs|);
    var p := Pos(t.group, i);
    assert p in outs <==> PoppedPos(j, g, k, p);
  }

  /** The tag that such a layer leaves. */
  lemma LeftTag(c: Config, j: Job, outs: map<Pos, Tensor>, g: nat, k: nat, q: nat) returns (t: Tag)
    requires j.Valid() && OutsUpTo(c, j, g, k, outs) && q > g && Unclaimed(j, q)
    ensures IsTag(j, t) && t.group == q && t !in TagsOf(j, outs.Keys)
  {
    var i :| 0 <= i < |j.program[q]| && j.program[q][i].Kept() && i !in j.pops[q];
    t := UnpoppedTag(c, j, g, k, outs, Pos(q, i));
  }

  /** As `enable_activation_offloading` sets it up, with one group fewer than layers: in every
      reachable state the device holds tensors of at most two groups besides those that the
      iteration leaves behind, and it holds all of these. */
  lemma DeviceHoldsTwo(c: Config, j: Job, n: nat)
    requires j.Valid() && j.Settings(c) && c.groups + 1 == c.layers
    requires After(c, j, n).Ok?
    ensures var s := After(c, j, n).value;
      Behind(j, s.pc) <= DeviceGroups(s.h) && |DeviceGroups(s.h) - Behind(j, s.pc)| <= 2
  {
    var s := After(c, j, n).value;
    AfterInv(c, j, n);
    hide ForwardInv, BackwardRun, DeviceGroups, LeftBehind;
    var ds := DeviceGroups(s.h) - Behind(j, s.pc);
    match s.pc
    case Forward(g, i) =>
      ForwardDevice(c, j, s.h, g, i);
      TwoOnly(ds, g);
    case Backward(g, k) =>
      BackwardDevice(c, j, s, g, k);
      TwoOnly(ds, g);
    case Finished =>
      BackwardDevice(c, j, s, 0, |j.pops[0]|);
      TwoOnly(ds, 0);
  }

  lemma TwoOnly(ds: set<nat>, g: nat)
    requires forall q | q in ds :: q == g || q == g - 1
    ensures |ds| <= 2
  {
    var all: set<nat> := if g > 0 then {g - 1, g} else {g};
    assert ds <= all;
    SmallerSubset(ds, all);
  }

  // ----- exactly when two groups are enough

  /** Layer q saves a tensor that the handler keeps. */
  ghost predicate Keeps(j: Job, q: int) {
    0 <= q < |j.program| && Stored(j.program[q]) != []
  }

  /** What is on the device right after the backward commit of layer g: the layer, the one
      prefetched for the next step, and what later layers leave behind. */
  ghost function Peak(j: Job, g: nat): set<nat>
    requires j.Valid()
  {
    LeftBehind(j, g) + (if Keeps(j, g) then {g} else {}) + (if Keeps(j, g - 1) then {g - 1 as nat} else {})
  }

  lemma PeakIsHeld(c: Config, j: Job, s: Run, g: nat)
    requires j.Valid() && j.Settings(c) && BackwardRun(c, j, s, g, 0)
    requires c.groups + 1 == c.layers
    ensures Peak(j, g) <= DeviceGroups(s.h)
  {
    BackwardDevice(c, j, s, g, 0);
    forall q: nat | Keeps(j, q) && (q == g || q == g - 1)
      ensures q in DeviceGroups(s.h)
    {
      var t := Tag(q, 0);
      EarlierNotPopped(c, j, s.outs, g, t);
      OnDeviceFrom(c, j, s.h, g, TagsOf(j, s.outs.Keys), t);
    }
  }

  lemma EarlierNotPopped(c: Config, j: Job, outs: map<Pos, Tensor>, g: nat, t: Tag)
    requires j.Valid() && g < |j.program| && OutsUpTo(c, j, g, 0, outs) && IsTag(j, t) && t.group <= g
    ensures t !in TagsOf(j, outs.Keys)
  {
    forall x | x in outs.Keys && IsPos(j, x) && IdOf(j, x).Tagged?
      ensures IdOf(j, x).tag != t
    {
      assert PoppedPos(j, g, 0, x);
      if j.program[x.g][x.i].Kept() {
        IdIsTag(j, x);
      }
    }
  }

  lemma HeldKeeps(c: Config, j: Job, s: Run, g: nat, k: nat)
    requires j.Valid() && j.Settings(c) && BackwardRun(c, j, s, g, k)
    ensures forall q | q in DeviceGroups(s.h) :: Keeps(j, q)
  {
    hide OutsUpTo, IdsUpTo, Reloads, OffloadLog, BackwardMapping, BackwardDone, Stored;
    forall t | t in s.h.state || t in s.h.buf
      ensures Keeps(j, t.group)
    {
      assert IsTag(j, t);
    }
  }

  /** On the way back nothing is held that is not held at the peak of the layer. */
  lemma HeldIsPeak(c: Config, j: Job, s: Run, g: nat, k: nat)
    requires j.Valid() && j.Settings(c) && BackwardRun(c, j, s, g, k)
    requires c.groups + 1 == c.layers
    ensures DeviceGroups(s.h) <= Peak(j, g)
  {
    hide BackwardRun, DeviceGroups, LeftBehind, Keeps;
    BackwardDevice(c, j, s, g, k);
    HeldKeeps(c, j, s, g, k);
  }

  /** The iteration reaches the commit of every layer on the way back. */
  lemma {:induction false} ReachesLayer(c: Config, j: Job, s: Run, n: nat, g: nat) returns (m: nat)
    requires j.Valid() && After(c, j, n) == Ok(s) && Drive(c, j, s).Ok? && g < |j.program|
    requires j.InRange(s.pc) && !s.pc.Finished?
    requires s.pc.Backward? ==> s.pc.g > g || s.pc == Backward(g, 0)
    ensures After(c, j, m).Ok? && After(c, j, m).value.pc == Backward(g, 0)
    decreases Phase(s.pc), LayersLeft(j, s.pc), StepsLeft(j, s.pc)
  {
    m := n;
    hide Next;
    if s.pc != Backward(g, 0) {
      Descends(c, j, s);
      NextPc(c, j, s);
      DriveUnfolds(c, j, s);
      assert After(c, j, n + 1) == Next(c, j, s);
      m := ReachesLayer(c, j, Next(c, j, s).value, n + 1, g);
    }
  }

  ghost predicate TwoSuffice(c: Config, j: Job)
    requires j.Valid()
  {
    forall n: nat | After(c, j, n).Ok? :: |DeviceGroups(After(c, j, n).value.h)| <= 2
  }

  ghost predicate SmallPeaks(j: Job)
    requires j.Valid()
  {
    forall g: nat | g < |j.program| :: |Peak(j, g)| <= 2
  }

  /** The device never holds more than two groups if and only if it does not after any backward
      commit, where it holds the layer and the one before it, if they keep anything, and the later
      layers that leave a tensor behind. */
  lemma AtMostTwoGroupsIff(c: Config, j: Job)
    requires j.Valid() && j.Settings(c) && c.groups + 1 == c.layers && Drive(c, j, START).Ok?
    ensures TwoSuffice(c, j) <==> SmallPeaks(j)
  {
    hide DeviceGroups, Peak, Drive;
    if SmallPeaks(j) {
      forall n: nat | After(c, j, n).Ok?
        ensures |DeviceGroups(After(c, j, n).value.h)| <= 2
      {
        TwoWhilePeaksAreSmall(c, j, n);
      }
    }
    if TwoSuffice(c, j) {
      forall g: nat | g < |j.program|
        ensures |Peak(j, g)| <= 2
      {
        PeakReached(c, j, g);
      }
    }
  }

  lemma PeakReached(c: Config, j: Job, g: nat)
    requires j.Valid() && j.Settings(c) && c.groups + 1 == c.layers && Drive(c, j, START).Ok?
    requires TwoSuffice(c, j) && g < |j.program|
    ensures |Peak(j, g)| <= 2
  {
    hide DeviceGroups, Peak, Drive, BackwardRun;
    assert After(c, j, 0) == Ok(START);
    var m := ReachesLayer(c, j, START, 0, g);
    AfterInv(c, j, m);
    var s := After(c, j, m).value;
    PeakIsHeld(c, j, s, g);
    SmallerSubset(Peak(j, g), DeviceGroups(s.h));
  }

  lemma TwoWhilePeaksAreSmall(c: Config, j: Job, n: nat)
    requires j.Valid() && j.Settings(c) && c.groups + 1 == c.layers && After(c, j, n).Ok?
    requires SmallPeaks(j)
    ensures |DeviceGroups(After(c, j, n).value.h)| <= 2
  {
    var s := After(c, j, n).value;
    AfterInv(c, j, n);
    hide ForwardInv, BackwardRun, DeviceGroups, Peak;
    match s.pc
    case Forward(g, i) =>
      ForwardDevice(c, j, s.h, g, i);
      TwoOnly(DeviceGroups(s.h), g);
    case Backward(g, k) =>
      HeldIsPeak(c, j, s, g, k);
      SmallerSubset(DeviceGroups(s.h), Peak(j, g));
    case Finished =>
      HeldIsPeak(c, j, s, 0, |j.pops[0]|);
      SmallerSubset(DeviceGroups(s.h), Peak(j, 0));
  }

  /** One tensor for each of three layers, of which the last is never asked for. */
  function OneLeft(a: Tensor): Job {
    Job(2, [[Saved(a, false, true)], [Saved(a, false, true)], [Saved(a, false, true)]], [[0], [0], []])
  }

  lemma OneLeftIsJob(a: Tensor)
    requires a.WellFormed()
    ensures OneLeft(a).Valid() && OneLeft(a).Settings(TWO_OF_THREE)
    ensures forall q | 0 <= q < 3 :: Stored(OneLeft(a).program[q]) == [a]
  {
    var j := OneLeft(a);
    forall q | 0 <= q < 3
      ensures Stored(j.program[q]) == [a]
    {
      var xs := j.program[q];
      assert xs[..0] == [] && Stored(xs) == Stored(xs[..0]) + [a];
    }
  }

  lemma OneLeftFits(a: Tensor)
    requires a.WellFormed()
    ensures OneLeft(a).Valid() && OneLeft(a).Settings(TWO_OF_THREE) && AllFit(TWO_OF_THREE, OneLeft(a))
  {
    OneLeftIsJob(a);
    hide Stored;
    CoherentPoppedAgree(TWO_OF_THREE, OneLeft(a));
  }

  lemma OneLeftPeak(a: Tensor)
    requires OneLeft(a).Valid() && forall q | 0 <= q < 3 :: Stored(OneLeft(a).program[q]) == [a]
    ensures |Peak(OneLeft(a), 1)| >= 3
  {
    hide Stored;
    var j := OneLeft(a);
    assert j.program[2][0].Kept() && 0 !in j.pops[2];
    assert Unclaimed(j, 2) && Keeps(j, 1) && Keeps(j, 0);
    assert {0, 1, 2} <= Peak(j, 1);
    SmallerSubset({0, 1, 2}, Peak(j, 1));
  }

  /** A third group is then on the device after the backward commit of the middle layer. */
  lemma LeftBehindExceedsTwo(a: Tensor)
    requires a.WellFormed()
    ensures OneLeft(a).Valid() && OneLeft(a).Settings(TWO_OF_THREE) && !TwoSuffice(TWO_OF_THREE, OneLeft(a))
  {
    hide Peak, TwoSuffice, Drive, Stored;
    OneLeftIsJob(a);
    OneLeftFits(a);
    IterationFinishes(TWO_OF_THREE, OneLeft(a));
    OneLeftPeak(a);
    AtMostTwoGroupsIff(TWO_OF_THREE, OneLeft(a));
  }

  /** When every kept tensor is asked for, two groups are always enough. */
  lemma AtMostTwoGroups(c: Config, j: Job, n: nat)
    requires j.Valid() && j.Settings(c) && j.Complete() && c.groups + 1 == c.layers
    requires After(c, j, n).Ok?
    ensures |DeviceGroups(After(c, j, n).value.h)| <= 2
  {
    DeviceHoldsTwo(c, j, n);
    var s := After(c, j, n).value;
    assert Behind(j, s.pc) == {};
    assert DeviceGroups(s.h) - Behind(j, s.pc) == DeviceGroups(s.h);
  }

  /** In every reachable state: a released buffer never leaves a moved tensor without its CPU
      copy; and on the way forward its tensor was moved at all unless groups and layers coincide. */
  lemma NoBufferDroppedEarly(c: Config, j: Job, n: nat, t: Tag)
    requires j.Valid() && j.Settings(c) && After(c, j, n).Ok?
    requires var h := After(c, j, n).value.h; t in h.buf && h.buf[t] == None
    ensures var h := After(c, j, n).value.h;
            && t in h.state
            && (h.state[t].Moved? ==> t.group in h.mapping && h.state[t].key in h.mapping[t.group])
            && (After(c, j, n).value.pc.Forward? ==> (h.state[t].Moved? <==> t.group == 0 || c.groups < c.layers))
  {
    var s := After(c, j, n).value;
    AfterInv(c, j, n);
    match s.pc
    case Forward(g, i) =>
      ForwardDropped(c, j, s.h, g, i, t);
    case Backward(g, k) =>
      BackwardDropped(c, j, s.h, g, TagsOf(j, s.outs.Keys), t);
    case Finished =>
      BackwardDropped(c, j, s.h, 0, TagsOf(j, s.outs.Keys), t);
  }

  lemma CopyUnderKey(c: Config, j: Job, t: Tag)
    requires IsTag(j, t) && Offloads(c, t.group)
    ensures TensorAt(j, t).KeyOf() in GroupCopies(c, j, t.group)
  {
  }

  /** A group whose window has closed has been bulk-offloaded. */
  lemma ClosedIsCalled(c: Config, q: nat, g: nat)
    requires WindowMap.Good(c.groups, c.layers, c.window) && q < c.groups && c.window[q] < g
    ensures Called(c, q, g)
  {
    if q > 0 {
      var p: nat := q - 1;
      assert c.window[p] < c.window[q];
    }
  }

  lemma ForwardDropped(c: Config, j: Job, h: Handler, g: nat, i: nat, t: Tag)
    requires j.Valid() && j.Settings(c) && j.InRange(Forward(g, i)) && ForwardInv(c, j, h, g, i)
    requires t in h.buf && h.buf[t] == None
    ensures t in h.state && (h.state[t].Moved? <==> t.group == 0 || c.groups < c.layers)
    ensures h.state[t].Moved? ==> t.group in h.mapping && h.state[t].key in h.mapping[t.group]
  {
    assert c.window[t.group] < g && IsTag(j, t);
    assert t in h.state && h.state[t] == ForwardSlot(c, j, t, g);
    ClosedIsCalled(c, t.group, g);
    assert t.group in h.mapping && h.mapping[t.group] == GroupCopies(c, j, t.group);
    if Offloads(c, t.group) {
      CopyUnderKey(c, j, t);
    }
    hide ForwardInv, Called, GroupCopies, TensorAt, IsTag, Job.Valid, Job.Settings, Job.InRange;
  }

  lemma BackwardDropped(c: Config, j: Job, h: Handler, g: nat, popped: set<Tag>, t: Tag)
    requires j.Valid() && j.Settings(c) && g <= |j.program| && BackwardInv(c, j, h, g, popped)
    requires t in h.buf
    ensures t in h.state
    ensures h.state[t].Moved? ==> t.group in h.mapping && h.state[t].key in h.mapping[t.group]
  {
    assert h.state[t] == BackwardSlot(c, j, t, g);
  }

  /** With as many groups as layers, which the constructor allows, each group after the first is
      "offloaded" before it is pushed: at the end of the forward pass it is all still on the device. */
  lemma FullOffloadStaysOnDevice(c: Config, j: Job, h: Handler, t: Tag)
    requires j.Valid() && j.Settings(c) && ForwardInv(c, j, h, |j.program|, 0) && t in h.state
    requires t.group < c.groups
    ensures h.state[t].OnDevice? <==> t.group > 0 && c.groups == c.layers
  {
    hide ForwardBuf, ForwardDone, ForwardMapping, Stored, TagsUpTo, GroupTags, Tensor.KeyOf;
    assert h.state[t] == ForwardSlot(c, j, t, |j.program|);
    if t.group > 0 {
      var p: nat := t.group - 1;
      assert c.window[p] < |j.program|;
    }
  }
}
