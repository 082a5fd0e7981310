/** Whole iterations of the asynchronous handler: when they finish, what their pops return, what
    they leave behind, when each group travels, and how much stays on the device on the way. */
module OffloadTheorems {
  import opened Collections
  import opened OffloadHandler
  import opened OffloadInvariant
  import opened OffloadSchedule
  import opened Tensors
  import WindowMap
  import opened Wrappers

  ghost predicate IsPos(j: Job, p: Pos) {
    p.g < |j.program| && p.i < |j.program[p.g]|
  }

  ghost predicate PushedPos(j: Job, g: nat, i: nat, p: Pos) {
    IsPos(j, p) && (p.g < g || (p.g == g && p.i < i))
  }

  /** The identifiers handed out for the first i tensors of layer g and all layers before. */
  ghost predicate IdsUpTo(j: Job, g: nat, i: nat, ids: map<Pos, Ident>) {
    && (forall p :: p in ids <==> PushedPos(j, g, i, p))
    && (forall p | p in ids && IsPos(j, p) :: ids[p] == IdOf(j, p))
  }

  ghost predicate PoppedPos(j: Job, g: nat, k: nat, p: Pos)
    requires j.Valid()
  {
    IsPos(j, p) &&
    if p.g > g then p.i in j.pops[p.g]
    else p.g == g && k <= |j.pops[g]| && p.i in j.pops[g][..k]
  }

  ghost function TagsOf(j: Job, ps: set<Pos>): set<Tag> {
    set p | p in ps && IsPos(j, p) && IdOf(j, p).Tagged? :: IdOf(j, p).tag
  }

  // ----- the log of transfers

  ghost function OffloadLog(c: Config, n: nat): seq<(nat, nat)>
    requires WindowMap.Good(c.groups, c.layers, c.window) && n <= c.groups
  {
    if n == 0 then [] else OffloadLog(c, n - 1) + [(n - 1, if n == 1 then 0 else c.window[n - 2])]
  }

  ghost function ReloadLog(c: Config, r: nat): seq<(nat, nat)>
    requires WindowMap.Good(c.groups, c.layers, c.window) && r <= c.groups
    decreases c.groups - r
  {
    if r == c.groups then [] else ReloadLog(c, r + 1) + [(r, c.window[r])]
  }

  ghost predicate ReloadedDownTo(c: Config, g: nat, r: nat)
    requires WindowMap.Good(c.groups, c.layers, c.window)
  {
    r <= c.groups && forall q: nat | q < c.groups :: c.window[q] < g <==> q < r
  }

  ghost function OffloadCount(c: Config, g: nat, done: nat): nat {
    if g == 0 then 0 else Min(c.groups, done + 1)
  }

  ghost predicate OutsUpTo(c: Config, j: Job, g: nat, k: nat, outs: map<Pos, Tensor>)
    requires j.Valid()
  {
    && (forall p :: p in outs <==> PoppedPos(j, g, k, p))
    && (forall p | p in outs && IsPos(j, p) :: outs[p] == Out(c, j, p))
  }

  ghost predicate Reloads(c: Config, g: nat, log: seq<(nat, nat)>)
    requires WindowMap.Good(c.groups, c.layers, c.window)
  {
    exists r: nat :: ReloadedDownTo(c, g, r) && log == ReloadLog(c, r)
  }

  // ----- the invariant of an iteration

  ghost predicate BackwardRun(c: Config, j: Job, s: Run, g: nat, k: nat)
    requires j.Valid() && j.Settings(c)
  {
    && g < |j.program|
    && IdsUpTo(j, |j.program|, 0, s.ids)
    && OutsUpTo(c, j, g, k, s.outs)
    && BackwardInv(c, j, s.h, g, TagsOf(j, s.outs.Keys))
    && s.offloads == OffloadLog(c, c.groups)
    && Reloads(c, g, s.reloads)
  }

  ghost predicate Inv(c: Config, j: Job, s: Run)
    requires j.Valid() && j.Settings(c) && j.InRange(s.pc)
  {
    match s.pc
    case Forward(g, i) =>
      && ForwardInv(c, j, s.h, g, i)
      && IdsUpTo(j, g, i, s.ids)
      && s.outs == map[] && s.reloads == []
      && s.offloads == OffloadLog(c, OffloadCount(c, g, s.h.done))
    case Backward(g, k) => BackwardRun(c, j, s, g, k)
    case Finished => BackwardRun(c, j, s, 0, |j.pops[0]|)
  }

  /** Moved groups that a step of the run reloads have copies of the right sizes. */
  ghost predicate FitsAt(c: Config, j: Job, g: nat)
    requires j.Valid() && j.Settings(c)
  {
    forall q: nat | q < c.groups && c.window[q] == g && Offloads(c, q) :: Fits(Stored(j.program[q]))
  }

  lemma NextIsPush(c: Config, j: Job, s: Run)
    requires j.Valid() && j.InRange(s.pc) && s.pc.Forward? && s.pc.g < |j.program| && s.pc.i < |j.program[s.pc.g]|
    ensures var r := Push(c, s.h, j.program[s.pc.g][s.pc.i]);
            r.Ok? ==> Next(c, j, s) == Ok(s.(h := r.value.0, ids := s.ids[Pos(s.pc.g, s.pc.i) := r.value.1],
              pc := Forward(s.pc.g, s.pc.i + 1)))
  {
  }

  lemma NextPush(c: Config, j: Job, s: Run)
    requires j.Valid() && j.Settings(c) && j.InRange(s.pc) && Inv(c, j, s)
    requires s.pc.Forward? && s.pc.g < |j.program| && s.pc.i < |j.program[s.pc.g]|
    ensures Next(c, j, s).Ok? && j.InRange(Next(c, j, s).value.pc) && Inv(c, j, Next(c, j, s).value)
  {
    var g, i := s.pc.g, s.pc.i;
    hide ForwardInv, OffloadLog, IdOf, IdsUpTo, Push, Next;
    NextIsPush(c, j, s);
    PushStep(c, j, s.h, g, i);
    PushIds(j, g, i, s.ids);
    PushKeepsDone(c, s.h, j.program[g][i]);
  }

  lemma PushKeepsDone(c: Config, h: Handler, x: Saved)
    requires Push(c, h, x).Ok?
    ensures Push(c, h, x).value.0.done == h.done
  {
  }

  lemma PushIds(j: Job, g: nat, i: nat, ids: map<Pos, Ident>)
    requires g < |j.program| && i < |j.program[g]|
    requires IdsUpTo(j, g, i, ids)
    ensures IdsUpTo(j, g, i + 1, ids[Pos(g, i) := IdOf(j, Pos(g, i))])
  {
    var ids' := ids[Pos(g, i) := IdOf(j, Pos(g, i))];
    forall p
      ensures p in ids' <==> PushedPos(j, g, i + 1, p)
    {
      assert p == Pos(g, i) <==> p.g == g && p.i == i;
    }
  }

  lemma StampOne(q: nat, g: nat)
    ensures Stamp([q], g) == [(q, g)] && Stamp([0, q], g) == [(0, g)] + [(q, g)] && Stamp([], g) == []
    ensures [0] + [q] == [0, q] && [0] + [] == [0]
  {
  }

  lemma OffloadLogMore(c: Config, n: nat)
    requires WindowMap.Good(c.groups, c.layers, c.window) && n < c.groups
    ensures OffloadLog(c, n + 1) == OffloadLog(c, n) + [(n, if n == 0 then 0 else c.window[n - 1])]
    ensures OffloadLog(c, 0) == []
  {
  }

  /** Which groups the commit of layer g adds to the log. */
  lemma OffloadLogStep(c: Config, g: nat, done: nat)
    requires WindowMap.Good(c.groups, c.layers, c.window) && ForwardDone(c, done, g) && g < c.layers
    requires done in c.window
    ensures OffloadCount(c, g, done) <= c.groups
    ensures var done' := if c.window[done] == g then done + 1 else done;
            && OffloadCount(c, g + 1, done') <= c.groups
            && OffloadLog(c, OffloadCount(c, g + 1, done')) ==
               OffloadLog(c, OffloadCount(c, g, done)) + Stamp(CallsAt(c, g, done), g)
  {
    CalledNext(c, g, done);
    assert c.window[0] >= 0;
    assert g == 0 ==> done == 0;
    assert done < c.groups;
    var more := c.window[done] == g && done + 1 < c.groups;
    StampOne(done + 1, g);
    StampOne(0, g);
    hide WindowMap.Good, ForwardDone, Stamp, OffloadLog;
    OffloadLogMore(c, 0);
    if more {
      OffloadLogMore(c, done + 1);
    }
    var log := OffloadLog(c, OffloadCount(c, g, done));
    assert log + [] == log && [] + [(0, g)] + [(done + 1, g)] == [] + ([(0, g)] + [(done + 1, g)]);
  }

  lemma NextIsCommit(c: Config, j: Job, s: Run)
    requires j.Valid() && j.InRange(s.pc) && s.pc.Forward? && s.pc.g < |j.program| && s.pc.i == |j.program[s.pc.g]|
    ensures var r := CommitForward(c, s.h);
            r.Ok? ==> Next(c, j, s) == Ok(s.(h := r.value.0, offloads := s.offloads + Stamp(r.value.1, s.pc.g),
              pc := Forward(s.pc.g + 1, 0)))
  {
  }

  lemma CommitDone(c: Config, j: Job, h: Handler, g: nat)
    requires j.Valid() && j.Settings(c) && g < |j.program| && ForwardInv(c, j, h, g, |j.program[g]|)
    ensures h.done in c.window && ForwardDone(c, h.done, g) && CommitForward(c, h).Ok?
    ensures CommitForward(c, h).value.0.done == if c.window[h.done] == g then h.done + 1 else h.done
  {
    CommitResult(c, j, h, g);
  }

  lemma LayerInRange(j: Job, g: nat)
    requires j.Valid() && g < |j.program|
    ensures j.InRange(Forward(g + 1, 0)) && |j.program[g]| == (Forward(g, |j.program[g]|)).i
  {
  }

  lemma CommitInv(c: Config, j: Job, s: Run, h: Handler, log: seq<(nat, nat)>)
    requires j.Valid() && j.Settings(c) && j.InRange(s.pc) && Inv(c, j, s)
    requires s.pc.Forward? && s.pc.g < |j.program| && s.pc.i == |j.program[s.pc.g]|
    requires ForwardInv(c, j, h, s.pc.g + 1, 0) && OffloadCount(c, s.pc.g + 1, h.done) <= c.groups
    requires log == OffloadLog(c, OffloadCount(c, s.pc.g + 1, h.done))
    ensures Inv(c, j, s.(h := h, offloads := log, pc := Forward(s.pc.g + 1, 0)))
  {
    hide ForwardInv, OffloadLog, OffloadCount, IdsUpTo;
    NextLayerIds(j, s.pc.g, s.ids);
  }

  lemma CommitLog(c: Config, j: Job, s: Run)
    requires j.Valid() && j.Settings(c) && j.InRange(s.pc) && Inv(c, j, s)
    requires s.pc.Forward? && s.pc.g < |j.program| && s.pc.i == |j.program[s.pc.g]|
    ensures s.h.done in c.window && CommitForward(c, s.h).Ok?
    ensures OffloadCount(c, s.pc.g + 1, CommitForward(c, s.h).value.0.done) <= c.groups
    ensures s.offloads + Stamp(CallsAt(c, s.pc.g, s.h.done), s.pc.g) ==
            OffloadLog(c, OffloadCount(c, s.pc.g + 1, CommitForward(c, s.h).value.0.done))
  {
    hide ForwardInv, CommitForward, ForwardDone, OffloadLog, OffloadCount, Stamp, CallsAt;
    CommitDone(c, j, s.h, s.pc.g);
    OffloadLogStep(c, s.pc.g, s.h.done);
  }

  lemma InvForward(c: Config, j: Job, s: Run)
    requires j.Valid() && j.Settings(c) && j.InRange(s.pc) && Inv(c, j, s) && s.pc.Forward?
    ensures ForwardInv(c, j, s.h, s.pc.g, s.pc.i)
  {
    hide ForwardInv, OffloadLog, OffloadCount, IdsUpTo;
  }

  lemma NextCommit(c: Config, j: Job, s: Run)
    requires j.Valid() && j.Settings(c) && j.InRange(s.pc) && Inv(c, j, s)
    requires s.pc.Forward? && s.pc.g < |j.program| && s.pc.i == |j.program[s.pc.g]|
    ensures Next(c, j, s).Ok? && j.InRange(Next(c, j, s).value.pc) && Inv(c, j, Next(c, j, s).value)
  {
    hide *;
    InvForward(c, j, s);
    LayerInRange(j, s.pc.g);
    NextIsCommit(c, j, s);
    CommitForwardStep(c, j, s.h, s.pc.g);
    CommitLog(c, j, s);
    CommitInv(c, j, s, CommitForward(c, s.h).value.0, s.offloads + Stamp(CallsAt(c, s.pc.g, s.h.done), s.pc.g));
  }

  lemma NextLayerIds(j: Job, g: nat, ids: map<Pos, Ident>)
    requires g < |j.program| && IdsUpTo(j, g, |j.program[g]|, ids)
    ensures IdsUpTo(j, g + 1, 0, ids)
  {
    assert forall p :: PushedPos(j, g, |j.program[g]|, p) <==> PushedPos(j, g + 1, 0, p);
  }

  /** How far reloads have come, when the next backward commit reaches layer g. */
  lemma ReloadedNext(c: Config, g: nat, done: nat, r: nat)
    requires WindowMap.Good(c.groups, c.layers, c.window) && BackwardDone(c, done, g + 1)
    requires ReloadedDownTo(c, g + 1, r) && done - 1 in c.window
    ensures c.window[done - 1] == g ==> r == done && done > 0 && ReloadedDownTo(c, g, r - 1)
    ensures c.window[done - 1] != g ==> ReloadedDownTo(c, g, r)
  {
    ReloadNext(c, g, done);
    if c.window[done - 1] == g {
      assert done < c.groups ==> !(c.window[done] < g + 1);
    }
  }

  lemma ReloadLogMore(c: Config, r: nat, g: nat)
    requires WindowMap.Good(c.groups, c.layers, c.window) && 0 < r <= c.groups && c.window[r - 1] == g
    ensures ReloadLog(c, r - 1) == ReloadLog(c, r) + Stamp([r - 1], g)
  {
    assert Stamp([r - 1], g) == [(r - 1, g)];
  }

  lemma ReloadLogStep(c: Config, g: nat, done: nat, log: seq<(nat, nat)>)
    requires WindowMap.Good(c.groups, c.layers, c.window) && BackwardDone(c, done, g + 1)
    requires Reloads(c, g + 1, log) && done - 1 in c.window
    ensures Reloads(c, g, log + Stamp(if c.window[done - 1] == g then [done - 1] else [], g))
  {
    var r: nat :| ReloadedDownTo(c, g + 1, r) && log == ReloadLog(c, r);
    ReloadedNext(c, g, done, r);
    assert r <= c.groups;
    hide WindowMap.Good, BackwardDone, ReloadedDownTo, ReloadLog, Stamp;
    if c.window[done - 1] == g {
      ReloadLogMore(c, r, g);
    } else {
      StampNothing(g);
      assert log + [] == log;
    }
  }

  lemma StampNothing(g: nat)
    ensures Stamp([], g) == []
  {
  }

  lemma DoneOf(c: Config, j: Job, h: Handler, g: nat, popped: set<Tag>)
    requires j.Valid() && j.Settings(c) && g <= |j.program| && BackwardInv(c, j, h, g, popped)
    ensures WindowMap.Good(c.groups, c.layers, c.window) && BackwardDone(c, h.done, g)
  {
    hide BackwardDone, WindowMap.Good;
  }

  lemma StepBackwardIs(c: Config, s: Run, g: nat)
    ensures var r := CommitBackward(c, s.h);
      StepBackward(c, s, g) ==
      if r.Err? then Err(r.error)
      else Ok(s.(h := r.value.0, reloads := s.reloads + Stamp(r.value.1, g), pc := Backward(g, 0)))
  {
    hide CommitBackward, Stamp;
  }

  lemma BackwardRunIs(c: Config, j: Job, s: Run, g: nat)
    requires j.Valid() && j.Settings(c) && g < |j.program|
    requires IdsUpTo(j, |j.program|, 0, s.ids) && OutsUpTo(c, j, g, 0, s.outs)
    requires BackwardInv(c, j, s.h, g, TagsOf(j, s.outs.Keys))
    requires s.offloads == OffloadLog(c, c.groups) && Reloads(c, g, s.reloads)
    ensures BackwardRun(c, j, s, g, 0)
  {
    hide IdsUpTo, OutsUpTo, BackwardInv, OffloadLog, Reloads;
  }

  lemma StepBackwardInv(c: Config, j: Job, s: Run, g: nat, k: nat)
    requires j.Valid() && j.Settings(c) && g < |j.program|
    requires IdsUpTo(j, |j.program|, 0, s.ids) && OutsUpTo(c, j, g, 0, s.outs)
    requires BackwardInv(c, j, s.h, g + 1, TagsOf(j, s.outs.Keys))
    requires s.offloads == OffloadLog(c, c.groups) && Reloads(c, g + 1, s.reloads)
    ensures var r := StepBackward(c, s, g);
            && (r.Ok? <==> FitsAt(c, j, g))
            && (r.Ok? ==> r.value.pc == Backward(g, 0) && BackwardRun(c, j, r.value, g, 0))
  {
    hide *;
    DoneOf(c, j, s.h, g + 1, TagsOf(j, s.outs.Keys));
    CommitBackwardStep(c, j, s.h, g, TagsOf(j, s.outs.Keys));
    BackwardFits(c, j, s.h, g, TagsOf(j, s.outs.Keys));
    ReloadLogStep(c, g, s.h.done, s.reloads);
    StepBackwardIs(c, s, g);
    if StepBackward(c, s, g).Ok? {
      BackwardRunIs(c, j, StepBackward(c, s, g).value, g);
    }
  }

  lemma BackwardFits(c: Config, j: Job, h: Handler, g: nat, popped: set<Tag>)
    requires j.Valid() && j.Settings(c) && g < |j.program| && BackwardInv(c, j, h, g + 1, popped)
    requires h.done - 1 in c.window
    ensures FitsAt(c, j, g) <==>
            (c.window[h.done - 1] == g && Offloads(c, h.done - 1) ==> Fits(Stored(j.program[h.done - 1])))
  {
    hide BackwardState, BackwardBuf, BackwardMapping, BackwardDone, Fits, Offloads, Stored;
    ReloadNext(c, g, h.done);
  }

  lemma TurnLogs(c: Config, j: Job, s: Run)
    requires j.Valid() && j.Settings(c) && j.InRange(s.pc) && Inv(c, j, s)
    requires s.pc.Forward? && s.pc.g == |j.program|
    ensures s.offloads == OffloadLog(c, c.groups) && Reloads(c, |j.program|, s.reloads)
  {
    hide BackwardInv, ForwardState, ForwardBuf, ForwardMapping, TagsUpTo, IdsUpTo;
    var l := |j.program|;
    assert c.window[c.groups - 1] < l;
    assert OffloadCount(c, l, s.h.done) == c.groups;
    assert ReloadedDownTo(c, l, c.groups) && ReloadLog(c, c.groups) == [];
  }

  lemma TurnRun(c: Config, j: Job, s: Run)
    requires j.Valid() && j.Settings(c) && j.InRange(s.pc) && Inv(c, j, s)
    requires s.pc.Forward? && s.pc.g == |j.program|
    ensures BackwardInv(c, j, s.h, |j.program|, TagsOf(j, s.outs.Keys))
    ensures OutsUpTo(c, j, |j.program| - 1, 0, s.outs) && IdsUpTo(j, |j.program|, 0, s.ids)
    ensures s.offloads == OffloadLog(c, c.groups) && Reloads(c, |j.program|, s.reloads)
  {
    hide ForwardInv, BackwardInv, IdsUpTo, IdOf, Out, OffloadLog, Reloads, OffloadCount;
    TurnLogs(c, j, s);
    Turn(c, j, s.h);
    assert TagsOf(j, s.outs.Keys) == {};
  }

  lemma NextTurn(c: Config, j: Job, s: Run)
    requires j.Valid() && j.Settings(c) && j.InRange(s.pc) && Inv(c, j, s)
    requires s.pc.Forward? && s.pc.g == |j.program|
    ensures Next(c, j, s).Ok? <==> FitsAt(c, j, |j.program| - 1)
    ensures Next(c, j, s).Ok? ==> j.InRange(Next(c, j, s).value.pc) && Inv(c, j, Next(c, j, s).value)
  {
    hide ForwardInv, BackwardInv, BackwardRun, OutsUpTo, IdsUpTo, FitsAt, OffloadLog, Reloads, TagsOf, StepBackward;
    TurnRun(c, j, s);
    StepBackwardInv(c, j, s, |j.program| - 1, 0);
  }

  lemma PopOuts(c: Config, j: Job, g: nat, k: nat, outs: map<Pos, Tensor>)
    requires j.Valid() && g < |j.program| && k < |j.pops[g]| && OutsUpTo(c, j, g, k, outs)
    ensures var p := Pos(g, j.pops[g][k]);
            IsPos(j, p) && p !in outs && OutsUpTo(c, j, g, k + 1, outs[p := Out(c, j, p)])
  {
    var p := Pos(g, j.pops[g][k]);
    assert IsPos(j, p);
    assert p.i !in j.pops[g][..k];
    var outs' := outs[p := Out(c, j, p)];
    hide Out;
    forall q
      ensures q in outs' <==> PoppedPos(j, g, k + 1, q)
    {
      assert q in outs <==> PoppedPos(j, g, k, q);
      assert j.pops[g][..k + 1] == j.pops[g][..k] + [j.pops[g][k]];
    }
  }

  lemma PopTags(j: Job, ps: set<Pos>, p: Pos)
    requires IsPos(j, p) && p !in ps
    ensures IdOf(j, p).Tagged? ==> IdOf(j, p).tag !in TagsOf(j, ps)
    ensures TagsOf(j, ps + {p}) == if IdOf(j, p).Tagged? then TagsOf(j, ps) + {IdOf(j, p).tag} else TagsOf(j, ps)
  {
    forall q | q in ps && IsPos(j, q) && IdOf(j, q).Tagged? && IdOf(j, p).Tagged?
      ensures IdOf(j, q) != IdOf(j, p)
    {
      IdsDiffer(j, p, q);
    }
  }

  lemma NextIsPop(c: Config, j: Job, s: Run)
    requires j.Valid() && j.InRange(s.pc) && s.pc.Backward? && s.pc.k < |j.pops[s.pc.g]|
    ensures var p := Pos(s.pc.g, j.pops[s.pc.g][s.pc.k]);
            p in s.ids && Pop(s.h, s.ids[p]).Ok? ==>
              Next(c, j, s) == Ok(s.(h := Pop(s.h, s.ids[p]).value.0, outs := s.outs[p := Pop(s.h, s.ids[p]).value.1],
                                     pc := Backward(s.pc.g, s.pc.k + 1)))
  {
  }

  lemma NextPop(c: Config, j: Job, s: Run)
    requires j.Valid() && j.Settings(c) && j.InRange(s.pc) && Inv(c, j, s)
    requires s.pc.Backward? && s.pc.k < |j.pops[s.pc.g]|
    ensures Next(c, j, s).Ok? && j.InRange(Next(c, j, s).value.pc) && Inv(c, j, Next(c, j, s).value)
  {
    var g, k := s.pc.g, s.pc.k;
    var p := Pos(g, j.pops[g][k]);
    hide Next, BackwardInv, OutsUpTo, TagsOf, IdOf, Out, Pop, Reloads, OffloadLog;
    NextIsPop(c, j, s);
    PopOuts(c, j, g, k, s.outs);
    PopTags(j, s.outs.Keys, p);
    assert p in s.ids && s.ids[p] == IdOf(j, p);
    PopStep(c, j, s.h, p, TagsOf(j, s.outs.Keys));
    var out := Out(c, j, p);
    assert s.outs[p := out].Keys == s.outs.Keys + {p};
  }

  lemma LayerPopped(c: Config, j: Job, g: nat, outs: map<Pos, Tensor>)
    requires j.Valid() && g + 1 < |j.program| && OutsUpTo(c, j, g + 1, |j.pops[g + 1]|, outs)
    ensures OutsUpTo(c, j, g, 0, outs)
  {
    assert j.pops[g + 1][..|j.pops[g + 1]|] == j.pops[g + 1];
    assert forall p :: PoppedPos(j, g + 1, |j.pops[g + 1]|, p) <==> PoppedPos(j, g, 0, p);
  }

  lemma NextLayer(c: Config, j: Job, s: Run)
    requires j.Valid() && j.Settings(c) && j.InRange(s.pc) && Inv(c, j, s)
    requires s.pc.Backward? && s.pc.k == |j.pops[s.pc.g]| && s.pc.g > 0
    ensures Next(c, j, s).Ok? <==> FitsAt(c, j, s.pc.g - 1)
    ensures Next(c, j, s).Ok? ==> j.InRange(Next(c, j, s).value.pc) && Inv(c, j, Next(c, j, s).value)
  {
    hide BackwardInv, OutsUpTo, IdsUpTo, FitsAt, OffloadLog, Reloads, TagsOf, StepBackward;
    LayerPopped(c, j, s.pc.g - 1, s.outs);
    StepBackwardInv(c, j, s, s.pc.g - 1, 0);
  }

  /** The layer whose commit the next step runs backward, if it does. */
  function Committing(j: Job, pc: PC): int {
    match pc
    case Forward(g, i) => if g == |j.program| then g - 1 else -1
    case Backward(g, k) => if g < |j.pops| && k == |j.pops[g]| then g - 1 else -1
    case Finished => -1
  }

  /** A step keeps the invariant, or it is a reload of a group whose copies have other sizes. */
  lemma NextInv(c: Config, j: Job, s: Run)
    requires j.Valid() && j.Settings(c) && j.InRange(s.pc) && Inv(c, j, s)
    ensures Next(c, j, s).Ok? <==> (Committing(j, s.pc) >= 0 ==> FitsAt(c, j, Committing(j, s.pc)))
    ensures Next(c, j, s).Ok? ==> j.InRange(Next(c, j, s).value.pc) && Inv(c, j, Next(c, j, s).value)
  {
    hide Inv, Next, FitsAt;
    match s.pc
    case Forward(g, i) =>
      if g == |j.program| {
        NextTurn(c, j, s);
      } else if i < |j.program[g]| {
        NextPush(c, j, s);
      } else {
        NextCommit(c, j, s);
      }
    case Backward(g, k) =>
      if k < |j.pops[g]| {
        NextPop(c, j, s);
      } else if g > 0 {
        NextLayer(c, j, s);
      } else {
        NextFinish(c, j, s);
      }
    case Finished =>
      NextFinish(c, j, s);
  }

  lemma NextFinish(c: Config, j: Job, s: Run)
    requires j.Valid() && j.Settings(c) && j.InRange(s.pc) && Inv(c, j, s)
    requires s.pc.Finished? || (s.pc.Backward? && s.pc.g == 0 && s.pc.k == |j.pops[0]|)
    ensures Next(c, j, s).Ok? && j.InRange(Next(c, j, s).value.pc) && Inv(c, j, Next(c, j, s).value)
  {
    hide BackwardInv, OutsUpTo, IdsUpTo, OffloadLog, Reloads, TagsOf;
  }
}
