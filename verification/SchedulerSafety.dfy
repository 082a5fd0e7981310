/** What every reachable state of the scheduler keeps: disjoint devices, every experiment in one
    place, training launches in the order of the initial queue. */
module SchedulerSafety {
  import opened Scheduler
  import opened Wrappers

  // ----- devices

  /** Running experiments hold pairwise disjoint sets of devices, as many as they asked for at their
      stage. */
  ghost predicate Disjoint(d: nat, running: seq<Run>) {
    && (forall i | 0 <= i < |running| ::
          running[i].gpus <= Devices(d)
          && |running[i].gpus| == if running[i].exp.doEval then running[i].exp.evalGpu else running[i].exp.gpu)
    && (forall i, j | 0 <= i < j < |running| :: running[i].gpus !! running[j].gpus)
  }

  lemma {:induction false} UsedContains(running: seq<Run>, g: nat)
    ensures g in Used(running) <==> exists i :: 0 <= i < |running| && g in running[i].gpus
  {
    if running != [] {
      var n := |running| - 1;
      UsedContains(running[..n], g);
      if g in Used(running) {
        if g in Used(running[..n]) {
          var i :| 0 <= i < n && g in running[..n][i].gpus;
          assert g in running[i].gpus;
        }
      }
      if i :| 0 <= i < |running| && g in running[i].gpus {
        if i < n {
          assert g in running[..n][i].gpus;
        }
      }
    }
  }

  lemma LaunchDisjoint(d: nat, running: seq<Run>, r: Run)
    requires Disjoint(d, running) && r.gpus <= Free(d, running) && |r.gpus| == r.exp.Need()
    ensures Disjoint(d, running + [r])
  {
    forall i | 0 <= i < |running|
      ensures running[i].gpus !! r.gpus
    {
      forall g | g in running[i].gpus
        ensures g !in r.gpus
      {
        UsedContains(running, g);
      }
    }
  }

  /** Alive runs are some of the runs, in order. */
  lemma {:induction false} AliveFrom(running: seq<Run>, exits: seq<Option<Exit>>) returns (at: seq<nat>)
    requires |running| == |exits|
    ensures |at| == |Alive(running, exits)|
    ensures forall k | 0 <= k < |at| :: at[k] < |running| && Alive(running, exits)[k] == running[at[k]]
    ensures forall i, j | 0 <= i < j < |at| :: at[i] < at[j]
  {
    if running == [] {
      at := [];
    } else {
      var n := |running| - 1;
      at := AliveFrom(running[..n], exits[..n]);
      assert forall k | 0 <= k < |at| :: running[..n][at[k]] == running[at[k]];
      if exits[n].None? {
        at := at + [n];
      }
    }
  }

  lemma NextDisjoint(d: nat, m: Mode, s: State, c: Choice)
    requires Disjoint(d, s.running) && Possible(d, m, s, c)
    ensures Disjoint(d, NextState(d, m, s, c).running)
  {
    match c
    case Launch(gpus, handler, build) =>
      if Attempt(d, s, build) == Launched {
        LaunchDisjoint(d, s.running, Run(Head(s), gpus, handler));
      }
    case Drained =>
    case Poll(exits) =>
      var at := AliveFrom(s.running, exits);
      SettleKeeps(s, s.running, exits);
  }

  lemma {:induction false} SettleKeeps(s: State, running: seq<Run>, exits: seq<Option<Exit>>)
    requires |running| == |exits|
    ensures var s' := SettleFirst(s, running, exits);
      s'.running == s.running && s'.trained == s.trained && s'.rejected == s.rejected
  {
    if running != [] {
      var n := |running| - 1;
      SettleKeeps(s, running[..n], exits[..n]);
    }
  }

  /** A training or export was not launched beside a running experiment of its name, and an export
      not beside another one. */
  ghost predicate Exclusive(running: seq<Run>) {
    forall i, j | 0 <= i < j < |running| && !running[j].exp.doEval ::
      && running[i].exp.name != running[j].exp.name
      && !(running[i].exp.cmd == Export && running[j].exp.cmd == Export)
  }

  lemma NextExclusive(d: nat, m: Mode, s: State, c: Choice)
    requires Exclusive(s.running) && Possible(d, m, s, c)
    ensures Exclusive(NextState(d, m, s, c).running)
  {
    match c
    case Launch(gpus, handler, build) =>
    case Drained =>
    case Poll(exits) =>
      var at := AliveFrom(s.running, exits);
      SettleKeeps(s, s.running, exits);
  }

  /** So it is in every reachable state. */
  lemma {:induction false} AlwaysExclusive(d: nat, m: Mode, s: State, cs: seq<Choice>, m': Mode, s': State)
    requires Reaches(d, m, s, cs, m', s') && Exclusive(s.running)
    ensures Exclusive(s'.running)
    decreases |cs|
  {
    hide Exclusive, NextState, NextMode, Possible;
    if cs != [] {
      NextExclusive(d, m, s, cs[0]);
      AlwaysExclusive(d, NextMode(d, m, s, cs[0]), NextState(d, m, s, cs[0]), cs[1..], m', s');
    }
  }

  // ----- every experiment is in exactly one place

  /** The experiment whatever its stage. */
  function Plain(e: Exp): Exp {
    e.(doEval := false)
  }

  function Plains(es: seq<Exp>): (r: seq<Exp>)
    ensures |r| == |es| && forall k | 0 <= k < |r| :: r[k] == Plain(es[k])
  {
    seq(|es|, k requires 0 <= k < |es| => Plain(es[k]))
  }

  function Exps(running: seq<Run>): (r: seq<Exp>)
    ensures |r| == |running| && forall k | 0 <= k < |r| :: r[k] == running[k].exp
  {
    seq(|running|, k requires 0 <= k < |running| => running[k].exp)
  }

  ghost function Bag(es: seq<Exp>): multiset<Exp> {
    multiset(Plains(es))
  }

  ghost function RunBag(running: seq<Run>): multiset<Exp> {
    Bag(Exps(running))
  }

  /** Where the experiments are: queued, running, finished and rejected together. */
  ghost function Everywhere(s: State): multiset<Exp> {
    Bag(s.queue) + RunBag(s.running) + Bag(s.finished) + Bag(s.rejected)
  }

  lemma BagPush(es: seq<Exp>, e: Exp)
    ensures Bag(es + [e]) == Bag(es) + multiset{Plain(e)}
    ensures Bag([e] + es) == Bag(es) + multiset{Plain(e)}
  {
    assert Plains(es + [e]) == Plains(es) + [Plain(e)];
    assert Plains([e] + es) == [Plain(e)] + Plains(es);
  }

  lemma RunBagPush(running: seq<Run>, r: Run)
    ensures RunBag(running + [r]) == RunBag(running) + multiset{Plain(r.exp)}
  {
    assert Exps(running + [r]) == Exps(running) + [r.exp];
    BagPush(Exps(running), r.exp);
  }

  lemma Swap(a: multiset<Exp>, b: multiset<Exp>, c: multiset<Exp>, d: multiset<Exp>, x: multiset<Exp>)
    ensures a + (b + x) + c + d == a + x + b + c + d
    ensures a + b + (c + x) + d == a + x + b + c + d
    ensures a + b + c + (d + x) == a + x + b + c + d
  {
  }

  lemma RunHeadConserves(d: nat, s: State, gpus: set<nat>, handler: nat, build: Build)
    requires s.queue != []
    ensures Everywhere(RunHead(d, s, gpus, handler, build)) == Everywhere(s)
  {
    hide Bag, RunBag, Attempt;
    var e, rest := Head(s), s.queue[1..];
    assert s.queue == [s.queue[0]] + rest;
    assert Plain(e) == Plain(s.queue[0]);
    BagPush(rest, s.queue[0]);
    Swap(Bag(rest), RunBag(s.running), Bag(s.finished), Bag(s.rejected), multiset{Plain(e)});
    match Attempt(d, s, build)
    case Skipped => BagPush(s.finished, s.queue[0]);
    case Rejected => BagPush(s.rejected, e);
    case NoGpu => BagPush(rest, e);
    case ExportBusy => BagPush(rest, e);
    case BuildAsserts => BagPush(rest, e);
    case Launched => RunBagPush(s.running, Run(e, gpus, handler));
  }

  /** A settled process puts its experiment back on the queue or among the finished ones. */
  lemma SettleConserves(s: State, e: Exp, x: Exit)
    ensures var s' := Settle(s, e, x);
      Bag(s'.queue) + Bag(s'.finished) == Bag(s.queue) + Bag(s.finished) + multiset{Plain(e)}
  {
    hide Bag;
    BagPush(s.queue, e.(doEval := true));
    BagPush(s.finished, e);
  }

  lemma Regroup(q: multiset<Exp>, f: multiset<Exp>, a: multiset<Exp>, x: multiset<Exp>)
    ensures q + f + x + a == q + f + a + x
    ensures q + f + (a + x) == q + f + a + x
  {
  }

  lemma {:induction false} SweepMoves(s: State, running: seq<Run>, exits: seq<Option<Exit>>)
    requires |running| == |exits|
    ensures var s' := SettleFirst(s, running, exits);
      Bag(s'.queue) + Bag(s'.finished) + RunBag(Alive(running, exits))
        == Bag(s.queue) + Bag(s.finished) + RunBag(running)
  {
    hide Bag, RunBag, Settle;
    if running != [] {
      var n := |running| - 1;
      SweepMoves(s, running[..n], exits[..n]);
      var s1, alive, r := SettleFirst(s, running[..n], exits[..n]), Alive(running[..n], exits[..n]), running[n];
      assert running == running[..n] + [r];
      RunBagPush(running[..n], r);
      Regroup(Bag(s1.queue), Bag(s1.finished), RunBag(alive), multiset{Plain(r.exp)});
      Regroup(Bag(s.queue), Bag(s.finished), RunBag(running[..n]), multiset{Plain(r.exp)});
      match exits[n]
      case None => RunBagPush(alive, r);
      case Some(x) =>
        SettleConserves(s1, r.exp, x);
        assert Alive(running, exits) == alive;
    }
  }

  lemma SweepConserves(s: State, exits: seq<Option<Exit>>)
    requires |s.running| == |exits|
    ensures Everywhere(Sweep(s, exits)) == Everywhere(s)
  {
    hide Bag, RunBag, SettleFirst, Alive;
    SweepMoves(s, s.running, exits);
    SettleKeeps(s, s.running, exits);
    var s' := SettleFirst(s, s.running, exits);
    Shuffle(Bag(s.queue), RunBag(s.running), Bag(s.finished), Bag(s.rejected));
    Shuffle(Bag(s'.queue), RunBag(Alive(s.running, exits)), Bag(s'.finished), Bag(s.rejected));
  }

  lemma Shuffle(q: multiset<Exp>, r: multiset<Exp>, f: multiset<Exp>, j: multiset<Exp>)
    ensures q + r + f + j == q + f + r + j
  {
  }

  lemma NextConserves(d: nat, m: Mode, s: State, c: Choice)
    requires Possible(d, m, s, c)
    ensures Everywhere(NextState(d, m, s, c)) == Everywhere(s)
  {
    hide Everywhere;
    match c
    case Launch(gpus, handler, build) => RunHeadConserves(d, s, gpus, handler, build);
    case Drained =>
    case Poll(exits) => SweepConserves(s, exits);
  }

  // ----- the order of the training launches

  /** The queue is some evaluations, then the initial queue from position `next`; the training
      launches are earlier positions of the initial queue, in order. */
  ghost predicate Ordered(exps: seq<Exp>, s: State, next: nat, at: seq<nat>) {
    && next <= |exps| && |exps| - next <= |s.queue|
    && s.queue[|s.queue| - (|exps| - next)..] == exps[next..]
    && (forall i | 0 <= i < |s.queue| - (|exps| - next) :: s.queue[i].doEval)
    && |at| == |s.trained|
    && (forall i | 0 <= i < |at| :: at[i] < next && s.trained[i] == exps[at[i]])
    && (forall i, j | 0 <= i < j < |at| :: at[i] < at[j])
  }

  lemma RunHeadOrdered(d: nat, s: State, gpus: set<nat>, handler: nat, build: Build, exps: seq<Exp>, next: nat,
        at: seq<nat>)
    returns (next': nat, at': seq<nat>)
    requires s.queue != [] && Ordered(exps, s, next, at)
    ensures Ordered(exps, RunHead(d, s, gpus, handler, build), next', at')
  {
    hide Attempt;
    if |s.queue| > |exps| - next {
      next', at' := next, at;
      EvalHeadOrdered(d, s, gpus, handler, build, exps, next, at);
    } else {
      assert s.queue == exps[next..];
      next', at' := TrainHeadOrdered(d, s, gpus, handler, build, exps, next, at);
    }
  }

  lemma EvalHeadOrdered(d: nat, s: State, gpus: set<nat>, handler: nat, build: Build, exps: seq<Exp>, next: nat,
        at: seq<nat>)
    requires Ordered(exps, s, next, at) && |s.queue| > |exps| - next
    ensures Ordered(exps, RunHead(d, s, gpus, handler, build), next, at)
  {
    hide Attempt, Ordered;
    EvalFirst(exps, s, next, at);
    RestOrdered(exps, s, next, at);
    FrontOrdered(exps, s.(queue := s.queue[1..]), Head(s), next, at);
    var s' := RunHead(d, s, gpus, handler, build);
    SameOrder(exps, s.(queue := s'.queue), s', next, at);
  }

  lemma EvalFirst(exps: seq<Exp>, s: State, next: nat, at: seq<nat>)
    requires Ordered(exps, s, next, at) && |s.queue| > |exps| - next
    ensures s.queue[0].doEval
  {
  }

  lemma RestOrdered(exps: seq<Exp>, s: State, next: nat, at: seq<nat>)
    requires Ordered(exps, s, next, at) && |s.queue| > |exps| - next
    ensures Ordered(exps, s.(queue := s.queue[1..]), next, at)
  {
    var rest, j := s.queue[1..], |s.queue| - (|exps| - next);
    assert rest[j - 1..] == s.queue[j..];
  }

  /** An evaluation in front of the queue. */
  lemma FrontOrdered(exps: seq<Exp>, s: State, e: Exp, next: nat, at: seq<nat>)
    requires Ordered(exps, s, next, at) && e.doEval
    ensures Ordered(exps, s.(queue := [e] + s.queue), next, at)
  {
    var j := |s.queue| - (|exps| - next);
    assert ([e] + s.queue)[j + 1..] == s.queue[j..];
  }

  lemma SameOrder(exps: seq<Exp>, s: State, t: State, next: nat, at: seq<nat>)
    requires s.queue == t.queue && s.trained == t.trained
    ensures Ordered(exps, s, next, at) ==> Ordered(exps, t, next, at)
  {
  }

  lemma TrainHeadOrdered(d: nat, s: State, gpus: set<nat>, handler: nat, build: Build, exps: seq<Exp>, next: nat,
        at: seq<nat>)
    returns (next': nat, at': seq<nat>)
    requires s.queue != [] && next < |exps| && s.queue == exps[next..] && Ordered(exps, s, next, at)
    ensures Ordered(exps, RunHead(d, s, gpus, handler, build), next', at')
  {
    hide *;
    RunHeadQueue(d, s, gpus, handler, build);
    NextOff(exps, s, next, at);
    var e, s' := Head(s), RunHead(d, s, gpus, handler, build);
    var off := s.(queue := s.queue[1..]);
    if s'.trained != s.trained {
      next', at' := next + 1, at + [next];
      SameOrder(exps, off.(trained := s'.trained), s', next', at');
    } else if s'.queue == s.queue {
      next', at' := next, at;
      SameOrder(exps, s, s', next', at');
    } else if s'.queue == off.queue {
      next', at' := next + 1, at;
      SameOrder(exps, off, s', next', at');
    } else {
      next', at' := next + 1, at;
      FrontOrdered(exps, off, e, next', at');
      SameOrder(exps, off.(queue := s'.queue), s', next', at');
    }
  }

  /** What a launch attempt can do to the queue and to the list of training launches. */
  lemma RunHeadQueue(d: nat, s: State, gpus: set<nat>, handler: nat, build: Build)
    requires s.queue != []
    ensures var (s', e, rest) := (RunHead(d, s, gpus, handler, build), Head(s), s.queue[1..]);
      || (s'.trained == s.trained && (s'.queue == s.queue || s'.queue == rest || (s'.queue == [e] + rest && e.doEval)))
      || (s'.trained == s.trained + [s.queue[0]] && s'.queue == rest)
  {
    hide Attempt;
    assert [s.queue[0]] + s.queue[1..] == s.queue;
  }

  /** The next training experiment off the queue, launched or not. */
  lemma NextOff(exps: seq<Exp>, s: State, next: nat, at: seq<nat>)
    requires s.queue != [] && next < |exps| && s.queue == exps[next..] && Ordered(exps, s, next, at)
    ensures Ordered(exps, s.(queue := s.queue[1..]), next + 1, at)
    ensures Ordered(exps, s.(queue := s.queue[1..], trained := s.trained + [s.queue[0]]), next + 1, at + [next])
  {
    assert s.queue[1..] == exps[next + 1..] && s.queue[0] == exps[next];
  }

  /** A sweep puts evaluations in front of the queue. */
  lemma {:induction false} SweepQueue(s: State, running: seq<Run>, exits: seq<Option<Exit>>) returns (evals: seq<Exp>)
    requires |running| == |exits|
    ensures SettleFirst(s, running, exits).queue == evals + s.queue
    ensures forall e | e in evals :: e.doEval
  {
    if running == [] {
      evals := [];
    } else {
      var n := |running| - 1;
      var first := SweepQueue(s, running[..n], exits[..n]);
      var s1 := SettleFirst(s, running[..n], exits[..n]);
      var e := running[n].exp.(doEval := true);
      evals := first;
      if x: Exit :| exits[n] == Some(x) && Settle(s1, running[n].exp, x).queue != s1.queue {
        evals := [e] + first;
        assert [e] + (first + s.queue) == evals + s.queue;
      }
    }
  }

  lemma NextOrdered(d: nat, m: Mode, s: State, c: Choice, exps: seq<Exp>, next: nat, at: seq<nat>)
    returns (next': nat, at': seq<nat>)
    requires Possible(d, m, s, c) && Ordered(exps, s, next, at)
    ensures Ordered(exps, NextState(d, m, s, c), next', at')
  {
    match c
    case Launch(gpus, handler, build) => next', at' := RunHeadOrdered(d, s, gpus, handler, build, exps, next, at);
    case Drained => next', at' := next, at;
    case Poll(exits) =>
      next', at' := next, at;
      var evals := SweepQueue(s, s.running, exits);
      SettleKeeps(s, s.running, exits);
      var q, j := Sweep(s, exits).queue, |s.queue| - (|exps| - next);
      assert q[|evals| + j..] == s.queue[j..];
  }

  // ----- every reachable state

  /** In every run, whatever the processes, the builds and the choice of devices: running
      experiments hold disjoint devices, every experiment is queued, running, finished or rejected
      exactly once, and the training launches follow the initial queue. */
  lemma {:induction false} ReachesSafe(d: nat, m: Mode, s: State, cs: seq<Choice>, m': Mode, s': State,
        exps: seq<Exp>, next: nat, at: seq<nat>)
    returns (next': nat, at': seq<nat>)
    requires Reaches(d, m, s, cs, m', s')
    requires Disjoint(d, s.running) && Everywhere(s) == Bag(exps) && Ordered(exps, s, next, at)
    ensures Disjoint(d, s'.running) && Everywhere(s') == Bag(exps) && Ordered(exps, s', next', at')
    decreases |cs|
  {
    hide Disjoint, Everywhere, Ordered, Plains, NextState, NextMode, Possible;
    if cs == [] {
      next', at' := next, at;
    } else {
      NextDisjoint(d, m, s, cs[0]);
      NextConserves(d, m, s, cs[0]);
      var k, p := NextOrdered(d, m, s, cs[0], exps, next, at);
      next', at' := ReachesSafe(d, NextMode(d, m, s, cs[0]), NextState(d, m, s, cs[0]), cs[1..], m', s', exps, k, p);
    }
  }

  lemma AlwaysSafe(d: nat, exps: seq<Exp>, store: map<string, bool>, cs: seq<Choice>, m: Mode, s: State)
    requires Reaches(d, InitialMode(exps), InitialState(exps, store), cs, m, s)
    ensures Disjoint(d, s.running)
    ensures Everywhere(s) == Bag(exps)
  {
    var s0 := InitialState(exps, store);
    InitialSafe(exps, store);
    var next, at := ReachesSafe(d, InitialMode(exps), s0, cs, m, s, exps, 0, []);
  }

  lemma InitialSafe(exps: seq<Exp>, store: map<string, bool>)
    ensures Everywhere(InitialState(exps, store)) == Bag(exps)
    ensures Ordered(exps, InitialState(exps, store), 0, [])
  {
  }

  predicate ByPriority(exps: seq<Exp>) {
    forall i, j | 0 <= i < j < |exps| :: exps[i].gpu <= exps[j].gpu
  }

  /** Training launches are experiments of the initial queue in its order, so the requests of the
      training launches never decrease. */
  lemma TrainingFollowsPriority(d: nat, exps: seq<Exp>, store: map<string, bool>, cs: seq<Choice>, m: Mode, s: State)
    returns (at: seq<nat>)
    requires Reaches(d, InitialMode(exps), InitialState(exps, store), cs, m, s)
    ensures |at| == |s.trained|
    ensures forall i | 0 <= i < |at| :: at[i] < |exps| && s.trained[i] == exps[at[i]]
    ensures forall i, j | 0 <= i < j < |at| :: at[i] < at[j]
    ensures ByPriority(exps) ==> ByPriority(s.trained)
  {
    InitialSafe(exps, store);
    var next;
    next, at := ReachesSafe(d, InitialMode(exps), InitialState(exps, store), cs, m, s, exps, 0, []);
  }

  /** The check for overlapping devices, run over the runs in order as a set that grows. */
  predicate NoOverlap(running: seq<Run>) {
    running == [] ||
    var n := |running| - 1;
    NoOverlap(running[..n]) && Used(running[..n]) !! running[n].gpus
  }

  lemma {:induction false} DisjointNeverOverlaps(d: nat, running: seq<Run>)
    requires Disjoint(d, running)
    ensures NoOverlap(running)
  {
    if running != [] {
      var n := |running| - 1;
      DisjointNeverOverlaps(d, running[..n]);
      forall g | g in running[n].gpus
        ensures g !in Used(running[..n])
      {
        UsedContains(running[..n], g);
      }
    }
  }
}
