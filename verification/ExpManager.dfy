/** The scheduler as it is written: an object whose methods update the running experiments and the
    queue in place. */
module ExpManager {
  import opened Scheduler
  import opened SchedulerSafety
  import opened SchedulerTermination
  import opened Wrappers

  // ----- the initial order

  function Insert(e: Exp, es: seq<Exp>): seq<Exp> {
    if es == [] || e.gpu <= es[0].gpu then [e] + es else [es[0]] + Insert(e, es[1..])
  }

  /** The stable sort by requested devices. */
  function SortByPriority(es: seq<Exp>): seq<Exp> {
    if es == [] then [] else Insert(es[0], SortByPriority(es[1..]))
  }

  function WithGpu(es: seq<Exp>, g: nat): seq<Exp> {
    if es == [] then [] else (if es[0].gpu == g then [es[0]] else []) + WithGpu(es[1..], g)
  }

  lemma {:induction false} InsertSorted(e: Exp, es: seq<Exp>)
    requires ByPriority(es)
    ensures ByPriority(Insert(e, es))
    ensures forall x | x in Insert(e, es) :: x == e || x in es
  {
    if es != [] && e.gpu > es[0].gpu {
      InsertSorted(e, es[1..]);
      var tail := Insert(e, es[1..]);
      assert forall x | x in es[1..] :: es[0].gpu <= x.gpu;
      assert forall x | x in tail :: es[0].gpu <= x.gpu;
    }
  }

  lemma {:induction false} InsertBag(e: Exp, es: seq<Exp>)
    ensures Bag(Insert(e, es)) == Bag(es) + multiset{Plain(e)}
  {
    hide Bag;
    if es == [] || e.gpu <= es[0].gpu {
      BagPush(es, e);
    } else {
      InsertBag(e, es[1..]);
      assert es == [es[0]] + es[1..];
      BagPush(es[1..], es[0]);
      BagPush(Insert(e, es[1..]), es[0]);
    }
  }

  lemma WithGpuCons(e: Exp, es: seq<Exp>, g: nat)
    ensures WithGpu([e] + es, g) == (if e.gpu == g then [e] else []) + WithGpu(es, g)
  {
    assert ([e] + es)[1..] == es;
  }

  lemma {:induction false} InsertStable(e: Exp, es: seq<Exp>, g: nat)
    ensures WithGpu(Insert(e, es), g) == (if e.gpu == g then [e] else []) + WithGpu(es, g)
  {
    hide WithGpu;
    if es == [] || e.gpu <= es[0].gpu {
      WithGpuCons(e, es, g);
    } else {
      InsertStable(e, es[1..], g);
      assert es == [es[0]] + es[1..];
      WithGpuCons(es[0], es[1..], g);
      WithGpuCons(es[0], Insert(e, es[1..]), g);
    }
  }

  /** The queue starts as the given experiments, smaller requests first, equal requests in the
      given order. */
  lemma {:induction false} SortSorts(es: seq<Exp>)
    ensures ByPriority(SortByPriority(es)) && Bag(SortByPriority(es)) == Bag(es)
    ensures forall g :: WithGpu(SortByPriority(es), g) == WithGpu(es, g)
  {
    hide Bag, ByPriority;
    if es == [] {
      assert ByPriority(es) by { EmptySorted(); }
    } else {
      var rest := SortByPriority(es[1..]);
      SortSorts(es[1..]);
      InsertSorted(es[0], rest);
      InsertBag(es[0], rest);
      assert es == [es[0]] + es[1..];
      BagPush(es[1..], es[0]);
      forall g
        ensures WithGpu(SortByPriority(es), g) == WithGpu(es, g)
      {
        InsertStable(es[0], rest, g);
      }
    }
  }

  lemma {:induction false} SortMembers(es: seq<Exp>)
    ensures forall x :: x in SortByPriority(es) <==> x in es
  {
    if es != [] {
      SortMembers(es[1..]);
      InsertMembers(es[0], SortByPriority(es[1..]));
      assert es == [es[0]] + es[1..];
    }
  }

  lemma {:induction false} InsertMembers(e: Exp, es: seq<Exp>)
    ensures forall x :: x in Insert(e, es) <==> x == e || x in es
  {
    if es != [] && e.gpu > es[0].gpu {
      InsertMembers(e, es[1..]);
      assert es == [es[0]] + es[1..];
    }
  }

  lemma EmptySorted()
    ensures ByPriority([])
  {
  }

  // ----- the environment

  /** Process `h` ends with `exit(h)` at poll `ends(h)`.  `build(e, t)` is how building the command
      of `e` ends between polls `t` and `t + 1`: with no poll in between, the same attempt ends in
      the same way. */
  datatype World = World(ends: nat -> nat, exit: nat -> Exit, build: (Exp, nat) -> Build)

  ghost predicate AlwaysBuilds(world: World) {
    forall e, t :: world.build(e, t) == Built
  }

  function PollOne(world: World, handler: nat, tick: nat): Option<Exit> {
    if world.ends(handler) <= tick then Some(world.exit(handler)) else None
  }

  function PollAll(world: World, running: seq<Run>, tick: nat): (r: seq<Option<Exit>>)
    ensures |r| == |running|
    ensures forall k | 0 <= k < |r| :: r[k] == PollOne(world, running[k].handler, tick)
  {
    seq(|running|, k requires 0 <= k < |running| => PollOne(world, running[k].handler, tick))
  }

  /** How the outer loop ends, or in which loop it stays. */
  datatype End = Finished | PollsForever | RetriesForever

  lemma {:induction false} ReachesStep(d: nat, m: Mode, s: State, cs: seq<Choice>, m1: Mode, s1: State, c: Choice)
    requires Reaches(d, m, s, cs, m1, s1) && Possible(d, m1, s1, c)
    ensures Reaches(d, m, s, cs + [c], NextMode(d, m1, s1, c), NextState(d, m1, s1, c))
    decreases |cs|
  {
    hide Possible, NextMode, NextState;
    if cs == [] {
      assert ([c])[1..] == [];
      assert Reaches(d, NextMode(d, m, s, c), NextState(d, m, s, c), [], NextMode(d, m, s, c), NextState(d, m, s, c));
    } else {
      ReachesStep(d, NextMode(d, m, s, cs[0]), NextState(d, m, s, cs[0]), cs[1..], m1, s1, c);
      assert (cs + [c])[1..] == cs[1..] + [c];
    }
  }

  /** With nothing to do the loops skip everything and never come to an end. */
  lemma {:induction false} NothingNeverEnds(d: nat, m: Mode, s: State, cs: seq<Choice>, m': Mode, s': State)
    requires s.running == [] && m != Done && !SomeWork(s.queue, s.store)
    requires Reaches(d, m, s, cs, m', s')
    ensures s'.running == [] && m' != Done && !SomeWork(s'.queue, s'.store) && s'.rejected == s.rejected
    decreases |cs|
  {
    if cs != [] {
      var s1 := NextState(d, m, s, cs[0]);
      if cs[0].Launch? {
        assert Settled(s.queue[0], s.store);
        assert forall i | 0 <= i < |s1.queue| :: s1.queue[i] == s.queue[i + 1];
      }
      NothingNeverEnds(d, NextMode(d, m, s, cs[0]), s1, cs[1..], m', s');
    }
  }

  // ----- the definitions the methods follow, one step each

  lemma AttemptUnfolds(d: nat, s: State, build: Build)
    requires s.queue != []
    ensures Settled(s.queue[0], s.store) <==>
      s.queue[0].name in s.store && !(s.queue[0].evalData && !s.store[s.queue[0].name])
    ensures var e := s.queue[0];
      Head(s) == if e.name in s.store && e.evalData && !s.store[e.name] then e.(doEval := true) else e
    ensures NameRunning(s, Head(s).name) <==> exists k :: 0 <= k < |s.running| && s.running[k].exp.name == Head(s).name
    ensures ExportRunning(s) <==> exists k :: 0 <= k < |s.running| && s.running[k].exp.cmd == Export
    ensures var e := Head(s);
      Attempt(d, s, build) ==
      if Settled(s.queue[0], s.store) then Skipped
      else if !e.doEval && NameRunning(s, e.name) then Rejected
      else if !e.doEval && e.cmd == Export && ExportRunning(s) then ExportBusy
      else if |Free(d, s.running)| < e.Need() then NoGpu
      else if !e.doEval && (e.cmd == Other || e.cmd == Eval) then Rejected
      else match build
        case Built => Launched
        case Asserts => BuildAsserts
        case Raises => Rejected
  {
  }

  lemma PossibleUnfolds(d: nat, s: State, c: Choice)
    requires s.queue != [] && c.Launch?
    ensures (Attempt(d, s, c.build) == Launched ==> c.gpus <= Free(d, s.running) && |c.gpus| == Head(s).Need()) ==>
      Possible(d, Filling, s, c)
  {
  }

  lemma RunHeadUnfolds(d: nat, s: State, gpus: set<nat>, handler: nat, build: Build)
    requires s.queue != []
    ensures var s', e := RunHead(d, s, gpus, handler, build), Head(s);
      if Attempt(d, s, build) == Launched then
        && s'.running == s.running + [Run(e, gpus, handler)]
        && s'.trained == if e.doEval then s.trained else s.trained + [e]
      else s'.running == s.running && s'.trained == s.trained
  {
  }

  lemma SettleUnfolds(s: State, e: Exp, x: Exit)
    ensures Settle(s, e, x) ==
      if x.ok && x.metric && !e.doEval then
        if e.evalData then s.(store := s.store[e.name := false], queue := [e.(doEval := true)] + s.queue)
        else s.(store := s.store[e.name := false], finished := s.finished + [e])
      else if x.ok && x.metric then s.(store := s.store[e.name := true], finished := s.finished + [e])
      else s.(finished := s.finished + [e])
  {
  }

  lemma SweepUnfolds(s: State, running: seq<Run>, exits: seq<Option<Exit>>, k: nat)
    requires |running| == |exits| && k <= |running|
    ensures SettleFirst(s, running[..0], exits[..0]) == s && Alive(running[..0], exits[..0]) == []
    ensures k < |running| ==>
      SettleFirst(s, running[..k + 1], exits[..k + 1]) ==
      (var before := SettleFirst(s, running[..k], exits[..k]);
       if exits[k].None? then before else Settle(before, running[k].exp, exits[k].value))
    ensures k < |running| ==>
      Alive(running[..k + 1], exits[..k + 1])
        == Alive(running[..k], exits[..k]) + (if exits[k].None? then [running[k]] else [])
    ensures running == s.running ==>
      Sweep(s, exits) == SettleFirst(s, running, exits).(running := Alive(running, exits))
  {
    if k < |running| {
      assert running[..k + 1][..k] == running[..k] && exits[..k + 1][..k] == exits[..k];
    }
  }

  class ExpManager {
    const devices: nat
    var exps: seq<Run>
    var expQueue: seq<Exp>
    /** The record files. */
    var store: map<string, bool>
    /** Counts of launches and polls, by which the environment answers. */
    var launches: nat
    var ticks: nat
    ghost var finished: seq<Exp>
    ghost var rejected: seq<Exp>
    ghost var trained: seq<Exp>

    constructor (d: nat, records: map<string, bool>)
      ensures devices == d && exps == [] && store == records
    {
      devices, exps, store := d, [], records;
      expQueue, launches, ticks := [], 0, 0;
      finished, rejected, trained := [], [], [];
    }

    ghost function Now(): State
      reads this
    {
      State(expQueue, exps, store, finished, rejected, trained)
    }

    lemma NowIs()
      ensures Now() == State(expQueue, exps, store, finished, rejected, trained)
    {
    }

    /** Some `n` devices that no running experiment holds, or nothing when there are fewer. */
    method FindFreeGpu(n: nat) returns (r: Option<set<nat>>)
      ensures r.None? <==> |Free(devices, exps)| < n
      ensures r.Some? ==> r.value <= Free(devices, exps) && |r.value| == n
    {
      var all: set<nat> := {};
      for k := 0 to |exps|
        invariant all == Used(exps[..k])
      {
        assert exps[..k + 1][..k] == exps[..k];
        all := all + exps[k].gpus;
      }
      assert exps[..|exps|] == exps;
      var free := Devices(devices) - all;
      if |free| < n {
        return None;
      }
      var picked: set<nat> := {};
      while |picked| < n
        invariant picked <= free && |picked| <= n
      {
        Missing(picked, free);
        var g :| g in free - picked;
        picked := picked + {g};
      }
      r := Some(picked);
    }

    /** The check over the running experiments that raises when two of them share a device. */
    method AssertGpuNotOverlap() returns (ok: bool)
      ensures ok <==> NoOverlap(exps)
    {
      var all: set<nat> := {};
      for k := 0 to |exps|
        invariant all == Used(exps[..k]) && NoOverlap(exps[..k])
      {
        assert exps[..k + 1][..k] == exps[..k];
        assert NoOverlap(exps[..k + 1]) <==> NoOverlap(exps[..k]) && Used(exps[..k]) !! exps[k].gpus;
        if !(all !! exps[k].gpus) {
          OverlapStays(exps, k + 1);
          return false;
        }
        all := all + exps[k].gpus;
      }
      assert exps[..|exps|] == exps;
      ok := true;
    }

    /** One launch attempt of the head of the queue. The overlap check after a launch always
        passes; the caller takes the head off the queue. */
    method RunExp(world: World) returns (outcome: Outcome, ghost choice: Choice)
      requires expQueue != [] && Disjoint(devices, exps)
      modifies this
      ensures choice.Launch? && choice.build == world.build(Head(old(Now())), old(ticks))
      ensures Possible(devices, Filling, old(Now()), choice)
      ensures outcome == Attempt(devices, old(Now()), choice.build)
      ensures var s := RunHead(devices, old(Now()), choice.gpus, choice.handler, choice.build);
        exps == s.running && trained == s.trained
      ensures expQueue == (if outcome == Skipped then old(expQueue) else [Head(old(Now()))] + old(expQueue)[1..])
      ensures store == old(store) && finished == old(finished) && rejected == old(rejected) && ticks == old(ticks)
    {
      hide *;
      NowIs();
      ghost var s := Now();
      var e := expQueue[0];
      ghost var b := world.build(Head(s), ticks);
      choice := Launch({}, launches, b);
      AttemptUnfolds(devices, s, b);
      PossibleUnfolds(devices, s, choice);
      RunHeadUnfolds(devices, s, {}, launches, b);
      if e.name in store {
        if e.evalData && !store[e.name] {
          e := e.(doEval := true);
          expQueue := [e] + expQueue[1..];
        } else {
          return Skipped, choice;
        }
      }
      assert expQueue == [e] + old(expQueue)[1..];
      if !e.doEval {
        if exists k :: 0 <= k < |exps| && exps[k].exp.name == e.name {
          return Rejected, choice;
        } else if e.cmd == Export && exists k :: 0 <= k < |exps| && exps[k].exp.cmd == Export {
          return ExportBusy, choice;
        }
      }
      var gpus := FindFreeGpu(e.Need());
      if gpus == None {
        return NoGpu, choice;
      }
      if !e.doEval && (e.cmd == Other || e.cmd == Eval) {
        return Rejected, choice;
      }
      match world.build(e, ticks) {
        case Built =>
        case Asserts => return BuildAsserts, choice;
        case Raises => return Rejected, choice;
      }
      choice := Launch(gpus.value, launches, b);
      PossibleUnfolds(devices, s, choice);
      RunHeadUnfolds(devices, s, gpus.value, launches, b);
      LaunchDisjoint(devices, exps, Run(e, gpus.value, launches));
      exps := exps + [Run(e, gpus.value, launches)];
      launches := launches + 1;
      trained := if e.doEval then trained else trained + [e];
      var ok := AssertGpuNotOverlap();
      DisjointNeverOverlaps(devices, exps);
      if !ok {
        assert false;
      }
      return Launched, choice;
    }

    /** Handles the processes that have ended and keeps the others. */
    method SweepOnce(exits: seq<Option<Exit>>)
      requires |exits| == |exps|
      modifies this
      ensures Now() == Sweep(old(Now()), exits)
      ensures launches == old(launches) && ticks == old(ticks)
    {
      hide *;
      ghost var s := Now();
      NowIs();
      SweepUnfolds(s, exps, exits, 0);
      var kept: seq<Run> := [];
      for k := 0 to |exps|
        invariant exps == s.running
        invariant Now() == SettleFirst(s, exps[..k], exits[..k])
        invariant kept == Alive(exps[..k], exits[..k])
        invariant launches == old(launches) && ticks == old(ticks)
      {
        SweepUnfolds(s, exps, exits, k);
        NowIs();
        var e := exps[k].exp;
        match exits[k]
        case None => kept := kept + [exps[k]];
        case Some(x) =>
          SettleUnfolds(Now(), e, x);
          if x.ok && x.metric && !e.doEval {
            store := store[e.name := false];
            if e.evalData {
              expQueue := [e.(doEval := true)] + expQueue;
            } else {
              finished := finished + [e];
            }
          } else {
            if x.ok && x.metric {
              store := store[e.name := true];
            }
            finished := finished + [e];
          }
        NowIs();
      }
      assert exps[..|exps|] == exps && exits[..|exps|] == exits;
      NowIs();
      exps := kept;
      NowIs();
    }

    /** Sweeps until some process has ended; with no process it would wait for ever. */
    method Poll(world: World) returns (hangs: bool, ghost choice: Choice)
      modifies this
      ensures hangs <==> old(exps) == []
      ensures hangs ==> Now() == old(Now())
      ensures !hangs ==>
        Possible(devices, Polling, old(Now()), choice) && choice.Poll? && Now() == Sweep(old(Now()), choice.exits)
    {
      choice := Drained;
      if exps == [] {
        return true, choice;
      }
      hangs := false;
      while true
        invariant Now() == old(Now()) && !hangs
        decreases world.ends(exps[0].handler) - ticks
      {
        ticks := ticks + 1;
        var exits := PollAll(world, exps, ticks);
        if k :| 0 <= k < |exits| && exits[k].Some? {
          SweepOnce(exits);
          choice := Choice.Poll(exits);
          break;
        }
        assert exits[0] == None;
      }
    }

    /** One turn of the inner loop, with what it does to the queue when the attempt returns or
        raises. */
    method TryHead(world: World) returns (outcome: Outcome, ghost choice: Choice)
      requires expQueue != [] && Disjoint(devices, exps)
      modifies this
      ensures choice.Launch? && choice.build == world.build(Head(old(Now())), old(ticks))
      ensures Possible(devices, Filling, old(Now()), choice)
      ensures outcome == Attempt(devices, old(Now()), choice.build)
      ensures Now() == RunHead(devices, old(Now()), choice.gpus, choice.handler, choice.build)
      ensures ticks == old(ticks)
    {
      hide Possible, Attempt, Head, Disjoint;
      ghost var e := Head(Now());
      outcome, choice := RunExp(world);
      match outcome
      case Rejected =>
        rejected := rejected + [e];
        expQueue := expQueue[1..];
      case Skipped =>
        finished := finished + [expQueue[0]];
        expQueue := expQueue[1..];
      case Launched =>
        expQueue := expQueue[1..];
      case NoGpu =>
      case ExportBusy =>
      case BuildAsserts =>
    }

    /** The inner loop: launches until the queue is empty or a launch has to wait for devices. */
    method Fill(world: World, ghost m0: Mode, ghost s0: State, ghost cs0: seq<Choice>)
          returns (retries: bool, ghost cs: seq<Choice>)
      requires Reaches(devices, m0, s0, cs0, Filling, Now())
      requires Disjoint(devices, exps)
      modifies this
      ensures Reaches(devices, m0, s0, cs, if retries then Filling else Polling, Now())
      ensures Disjoint(devices, exps) && Work(Now()) <= Work(old(Now()))
      ensures AlwaysBuilds(world) && AllBuilt(cs0) ==> AllBuilt(cs)
      ensures retries ==> RetriesIn(devices, world, ticks, Now())
    {
      hide Possible, Attempt, RunHead, Disjoint, Work;
      cs := cs0;
      while expQueue != []
        invariant Reaches(devices, m0, s0, cs, Filling, Now())
        invariant Disjoint(devices, exps) && Work(Now()) <= Work(old(Now()))
        invariant AlwaysBuilds(world) && AllBuilt(cs0) ==> AllBuilt(cs)
        decreases Work(Now())
      {
        ghost var s := Now();
        ghost var choice;
        var outcome;
        outcome, choice := TryHead(world);
        ReachesStep(devices, m0, s0, cs, Filling, s, choice);
        NextDisjoint(devices, Filling, s, choice);
        LaunchProgress(devices, s, choice.gpus, choice.handler, choice.build);
        cs := cs + [choice];
        if outcome == NoGpu {
          return false, cs;
        } else if outcome == ExportBusy || outcome == BuildAsserts {
          NextRetry(devices, world, ticks, s, choice);
          return true, cs;
        }
      }
      DrainedPossible(devices, Now());
      ReachesStep(devices, m0, s0, cs, Filling, Now(), Drained);
      cs := cs + [Drained];
      retries := false;
    }

    /** The scheduler: runs all experiments, or reports the loop it stays in for ever. With
        admissible experiments and builds that succeed it finishes, without a rejection, exactly
        when there are no experiments or some has something left to do. */
    method Begin(world: World, experiments: seq<Exp>) returns (end: End, ghost mode: Mode, ghost cs: seq<Choice>)
      requires exps == []
      modifies this
      ensures var q := SortByPriority(experiments);
        Reaches(devices, InitialMode(q), InitialState(q, old(store)), cs, mode, Now())
      ensures end == Finished <==> mode == Done
      ensures end == PollsForever ==> mode == Polling && exps == []
      ensures end == RetriesForever ==> mode == Filling && RetriesIn(devices, world, ticks, Now())
      ensures end == Finished ==> expQueue == [] && exps == [] && Bag(finished) + Bag(rejected) == Bag(experiments)
      ensures ByPriority(trained)
      ensures AlwaysBuilds(world) && Admissible(devices, experiments, old(store)) ==>
        (end == Finished <==> experiments == [] || SomeWork(experiments, old(store))) && rejected == []
    {
      hide *;
      expQueue := SortByPriority(experiments);
      finished, rejected, trained := [], [], [];
      ghost var m0, s0 := InitialMode(expQueue), InitialState(expQueue, store);
      cs, mode := [], m0;
      ghost var ok := AlwaysBuilds(world);
      NowIs();
      InitialRun(devices, experiments, store);
      while expQueue != [] || exps != []
        invariant Reaches(devices, m0, s0, cs, mode, Now())
        invariant Disjoint(devices, exps)
        invariant mode == if expQueue == [] && exps == [] then Done else Filling
        invariant ok ==> AllBuilt(cs)
        decreases Work(Now())
      {
        var retries;
        retries, cs := Fill(world, m0, s0, cs);
        NowIs();
        if retries {
          IsFinal(devices, world, ticks, Filling, Now());
          RunFacts(devices, experiments, s0.store, cs, Filling, Now(), world, ticks);
          return RetriesForever, Filling, cs;
        }
        mode := Polling;
        ghost var s := Now();
        var hangs;
        ghost var choice;
        hangs, choice := Poll(world);
        if hangs {
          NowIs();
          IsFinal(devices, world, ticks, mode, Now());
          RunFacts(devices, experiments, s0.store, cs, mode, Now(), world, ticks);
          return PollsForever, Polling, cs;
        }
        PollUnfolds(devices, s, choice);
        NowIs();
        ReachesStep(devices, m0, s0, cs, Polling, s, choice);
        AllBuiltPush(cs, choice);
        NextDisjoint(devices, Polling, s, choice);
        NextProgress(devices, Polling, s, choice);
        cs, mode := cs + [choice], NextMode(devices, Polling, s, choice);
      }
      NowIs();
      IsFinal(devices, world, ticks, mode, Now());
      RunFacts(devices, experiments, s0.store, cs, mode, Now(), world, ticks);
      end := Finished;
    }
  }

  lemma Missing(a: set<nat>, b: set<nat>)
    requires a <= b && |a| < |b|
    ensures b - a != {}
  {
    assert b == a + (b - a);
  }

  lemma {:induction false} OverlapStays(running: seq<Run>, k: nat)
    requires k <= |running| && !NoOverlap(running[..k])
    ensures !NoOverlap(running)
  {
    if k < |running| {
      var n := |running| - 1;
      assert running[..n][..k] == running[..k];
      OverlapStays(running[..n], k);
    } else {
      assert running[..k] == running;
    }
  }

  /** The head is retried, and every retry before the next poll ends in the same way. */
  ghost predicate RetriesIn(d: nat, world: World, tick: nat, s: State) {
    s.queue != [] && Head(s) == s.queue[0] && Retried(Attempt(d, s, world.build(Head(s), tick)))
  }

  lemma NextRetry(d: nat, world: World, tick: nat, s: State, c: Choice)
    requires Possible(d, Filling, s, c) && c.Launch? && c.build == world.build(Head(s), tick)
    requires Retried(Attempt(d, s, c.build))
    ensures RetriesIn(d, world, tick, RunHead(d, s, c.gpus, c.handler, c.build))
  {
  }

  /** Where `Begin` reports an endless retry, no run without a poll leaves the state. */
  lemma RetriesInForever(d: nat, world: World, tick: nat, s: State, cs: seq<Choice>, m': Mode, s': State)
    requires RetriesIn(d, world, tick, s) && SameBuild(cs, world.build(Head(s), tick))
    requires Reaches(d, Filling, s, cs, m', s')
    ensures m' == Filling && s' == s
  {
    RetryForever(d, s, world.build(Head(s), tick), cs, m', s');
  }

  lemma DrainedPossible(d: nat, s: State)
    requires s.queue == []
    ensures Possible(d, Filling, s, Drained)
  {
  }

  lemma AllBuiltPush(cs: seq<Choice>, c: Choice)
    requires !c.Launch?
    ensures AllBuilt(cs) ==> AllBuilt(cs + [c])
  {
  }

  lemma PollUnfolds(d: nat, s: State, c: Choice)
    requires c.Poll? && Possible(d, Polling, s, c)
    ensures NextState(d, Polling, s, c) == Sweep(s, c.exits)
    ensures var s' := Sweep(s, c.exits);
      NextMode(d, Polling, s, c) == if s'.queue == [] && s'.running == [] then Done else Filling
    ensures !Busy(d, s, c)
    ensures Measure(NextMode(d, Polling, s, c), NextState(d, Polling, s, c)) < Measure(Polling, s) ==>
      Work(Sweep(s, c.exits)) < Work(s)
  {
  }

  lemma InitialRun(d: nat, experiments: seq<Exp>, store: map<string, bool>)
    ensures var q := SortByPriority(experiments);
      Reaches(d, InitialMode(q), InitialState(q, store), [], InitialMode(q), InitialState(q, store))
      && InitialMode(q) == (if q == [] then Done else Filling)
      && InitialState(q, store) == State(q, [], store, [], [], [])
    ensures Disjoint(d, []) && AllBuilt([])
  {
  }

  lemma SortAdmissible(d: nat, experiments: seq<Exp>, store: map<string, bool>)
    requires Admissible(d, experiments, store)
    ensures Admissible(d, SortByPriority(experiments), store)
  {
    var q := SortByPriority(experiments);
    SortSorts(experiments);
    SortMembers(experiments);
    forall i, j | 0 <= i < j < |q|
      ensures q[i].name != q[j].name && !(NewExport(q[i], store) && NewExport(q[j], store))
    {
      BagHasTwo(q, i, j);
      TwoPlaces(d, experiments, store, q[i], q[j]);
    }
  }

  lemma SortWork(experiments: seq<Exp>, store: map<string, bool>)
    ensures SomeWork(SortByPriority(experiments), store) <==> SomeWork(experiments, store)
    ensures SortByPriority(experiments) == [] <==> experiments == []
  {
    var q := SortByPriority(experiments);
    SortMembers(experiments);
    if i :| 0 <= i < |q| && !Settled(q[i], store) {
      assert q[i] in experiments;
    }
    if i :| 0 <= i < |experiments| && !Settled(experiments[i], store) {
      assert experiments[i] in q;
    }
    if experiments != [] {
      assert experiments[0] in q;
    }
  }

  /** Where the loops can stay: after the end, in a poll with nothing running, or retrying the
      head. */
  ghost predicate Final(d: nat, world: World, tick: nat, m: Mode, s: State) {
    || m == Done
    || (m == Polling && s.running == [])
    || (m == Filling && RetriesIn(d, world, tick, s))
  }

  lemma FinalOfAdmissible(d: nat, q: seq<Exp>, store: map<string, bool>, cs: seq<Choice>, m: Mode, s: State,
        world: World, tick: nat)
    requires Reaches(d, InitialMode(q), InitialState(q, store), cs, m, s) && AllBuilt(cs)
    requires Admissible(d, q, store) && AlwaysBuilds(world) && Final(d, world, tick, m, s)
    ensures (m == Done <==> q == [] || SomeWork(q, store)) && s.rejected == []
  {
    if q == [] || SomeWork(q, store) {
      WorkEnds(d, q, store, cs, m, s, world, tick);
    } else {
      NothingNeverEnds(d, Filling, InitialState(q, store), cs, m, s);
    }
  }

  lemma WorkEnds(d: nat, q: seq<Exp>, store: map<string, bool>, cs: seq<Choice>, m: Mode, s: State, world: World,
        tick: nat)
    requires Reaches(d, InitialMode(q), InitialState(q, store), cs, m, s) && AllBuilt(cs)
    requires Admissible(d, q, store) && AlwaysBuilds(world) && Final(d, world, tick, m, s)
    requires q == [] || SomeWork(q, store)
    ensures m == Done && s.rejected == []
  {
    hide Admissible, Live, Reaches, Attempt, SomeWork;
    InitialLive(d, q, store);
    ReachesLive(d, q, store, InitialMode(q), InitialState(q, store), cs, m, s);
    LiveNotHung(d, q, store, m, s);
  }

  /** What a run of the sorted queue has at any point, and where it ends when builds succeed. */
  lemma RunFacts(d: nat, experiments: seq<Exp>, store: map<string, bool>, cs: seq<Choice>, m: Mode, s: State,
        world: World, tick: nat)
    requires var q := SortByPriority(experiments); Reaches(d, InitialMode(q), InitialState(q, store), cs, m, s)
    requires AlwaysBuilds(world) ==> AllBuilt(cs)
    ensures ByPriority(s.trained)
    ensures m == Done && s.queue == [] && s.running == [] ==> Bag(s.finished) + Bag(s.rejected) == Bag(experiments)
    ensures AlwaysBuilds(world) && Admissible(d, experiments, store) && Final(d, world, tick, m, s) ==>
      (m == Done <==> experiments == [] || SomeWork(experiments, store)) && s.rejected == []
  {
    hide Admissible, SomeWork, Final, AlwaysBuilds;
    var q := SortByPriority(experiments);
    SortSorts(experiments);
    AlwaysSafe(d, q, store, cs, m, s);
    var at := TrainingFollowsPriority(d, q, store, cs, m, s);
    if AlwaysBuilds(world) && Admissible(d, experiments, store) && Final(d, world, tick, m, s) {
      SortAdmissible(d, experiments, store);
      SortWork(experiments, store);
      FinalOfAdmissible(d, q, store, cs, m, s, world, tick);
    }
  }

  lemma IsFinal(d: nat, world: World, tick: nat, m: Mode, s: State)
    ensures m == Done ==> Final(d, world, tick, m, s)
    ensures m == Polling && s.running == [] ==> Final(d, world, tick, m, s)
    ensures m == Filling && RetriesIn(d, world, tick, s) ==> Final(d, world, tick, m, s)
  {
  }
}
