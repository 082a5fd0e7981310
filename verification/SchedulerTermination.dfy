/** When the two loops of the scheduler end. */
module SchedulerTermination {
  import opened Collections
  import opened Scheduler
  import opened SchedulerSafety
  import opened Wrappers

  // ----- every step but a retry after an assertion makes progress

  function Stages(es: seq<Exp>): nat {
    if es == [] then 0 else Stages(es[..|es| - 1]) + (if es[|es| - 1].doEval then 2 else 4)
  }

  function RunStages(running: seq<Run>): nat {
    if running == [] then 0
    else RunStages(running[..|running| - 1]) + (if running[|running| - 1].exp.doEval then 1 else 3)
  }

  /** The remaining launches and exits. */
  function Work(s: State): nat {
    Stages(s.queue) + RunStages(s.running)
  }

  function Measure(m: Mode, s: State): nat {
    2 * Work(s) + if m == Filling then 1 else 0
  }

  /** An assertion other than for want of devices: the same head is tried again at once. */
  predicate Busy(d: nat, s: State, c: Choice) {
    s.queue != [] && c.Launch? && Retried(Attempt(d, s, c.build)) && Head(s) == s.queue[0]
  }

  lemma {:induction false} StagesHead(es: seq<Exp>)
    requires es != []
    ensures Stages(es) == Stages(es[1..]) + (if es[0].doEval then 2 else 4)
  {
    var n := |es| - 1;
    if n > 0 {
      StagesHead(es[..n]);
      assert es[1..][..n - 1] == es[..n][1..];
    }
  }

  lemma StagesPush(e: Exp, es: seq<Exp>)
    ensures Stages([e] + es) == Stages(es) + (if e.doEval then 2 else 4)
  {
    StagesHead([e] + es);
    assert ([e] + es)[1..] == es;
  }

  lemma RunStagesPush(running: seq<Run>, r: Run)
    ensures RunStages(running + [r]) == RunStages(running) + (if r.exp.doEval then 1 else 3)
  {
    assert (running + [r])[..|running|] == running;
  }

  /** A sweep trades every exited run for less queued work. */
  lemma {:induction false} SweepProgress(s: State, running: seq<Run>, exits: seq<Option<Exit>>)
    requires |running| == |exits|
    ensures var left := Stages(SettleFirst(s, running, exits).queue) + RunStages(Alive(running, exits));
      && left <= Stages(s.queue) + RunStages(running)
      && (SomeExit(exits) ==> left < Stages(s.queue) + RunStages(running))
  {
    if running != [] {
      var n := |running| - 1;
      SweepProgress(s, running[..n], exits[..n]);
      var s1, alive, e := SettleFirst(s, running[..n], exits[..n]), Alive(running[..n], exits[..n]), running[n].exp;
      RunStagesPush(alive, running[n]);
      StagesPush(e.(doEval := true), s1.queue);
      assert exits[n].Some? ==> Alive(running, exits) == alive;
      assert exits[n].None? ==> (SomeExit(exits) ==> SomeExit(exits[..n])) by {
        if exits[n].None? && SomeExit(exits) {
          var k :| 0 <= k < |exits| && exits[k].Some?;
          assert exits[..n][k].Some?;
        }
      }
    }
  }

  lemma LaunchProgress(d: nat, s: State, gpus: set<nat>, handler: nat, build: Build)
    requires s.queue != []
    ensures var s' := RunHead(d, s, gpus, handler, build);
      if (Attempt(d, s, build) == NoGpu || Retried(Attempt(d, s, build))) && Head(s) == s.queue[0]
      then Work(s') == Work(s) else Work(s') < Work(s)
  {
    hide Attempt;
    var e, rest := Head(s), s.queue[1..];
    StagesHead(s.queue);
    StagesPush(e, rest);
    RunStagesPush(s.running, Run(e, gpus, handler));
  }

  /** Every step lowers the measure but a retry of the same head, which changes nothing. */
  lemma NextProgress(d: nat, m: Mode, s: State, c: Choice)
    requires Possible(d, m, s, c)
    ensures !Busy(d, s, c) ==> Measure(NextMode(d, m, s, c), NextState(d, m, s, c)) < Measure(m, s)
    ensures Busy(d, s, c) ==> NextMode(d, m, s, c) == m && NextState(d, m, s, c) == s
  {
    hide Attempt;
    match c
    case Launch(gpus, handler, build) =>
      LaunchProgress(d, s, gpus, handler, build);
      assert [s.queue[0]] + s.queue[1..] == s.queue;
    case Drained =>
    case Poll(exits) =>
      SweepProgress(s, s.running, exits);
  }

  // ----- endless retries

  /** Every launch of the run finds its command built, asserting or raising in the same way. */
  ghost predicate SameBuild(cs: seq<Choice>, build: Build) {
    forall c | c in cs :: c.Launch? ==> c.build == build
  }

  lemma RetryIdles(d: nat, s: State, c: Choice)
    requires Possible(d, Filling, s, c) && c.Launch? && Retried(Attempt(d, s, c.build)) && Head(s) == s.queue[0]
    ensures NextMode(d, Filling, s, c) == Filling && NextState(d, Filling, s, c) == s
  {
    assert [s.queue[0]] + s.queue[1..] == s.queue;
  }

  /** A head whose attempt ends in an assertion is retried without polling: as long as its build
      ends in the same way, nothing ever happens again, not even to the running processes. */
  lemma {:induction false} RetryForever(d: nat, s: State, build: Build, cs: seq<Choice>, m': Mode, s': State)
    requires s.queue != [] && Retried(Attempt(d, s, build)) && Head(s) == s.queue[0]
    requires Reaches(d, Filling, s, cs, m', s') && SameBuild(cs, build)
    ensures m' == Filling && s' == s
    decreases |cs|
  {
    if cs != [] {
      assert cs[0] in cs && cs[0].Launch?;
      RetryIdles(d, s, cs[0]);
      RetryForever(d, s, build, cs[1..], m', s');
    }
  }

  lemma ExportWaits(d: nat, s: State, build: Build)
    requires s.queue != [] && Attempt(d, s, build) == ExportBusy
    ensures Head(s) == s.queue[0] && forall other :: Attempt(d, s, other) == ExportBusy
  {
  }

  /** An export at the head while another one runs is retried for ever, however builds end. */
  lemma {:induction false} BusyForever(d: nat, s: State, build: Build, cs: seq<Choice>, m': Mode, s': State)
    requires s.queue != [] && Attempt(d, s, build) == ExportBusy
    requires Reaches(d, Filling, s, cs, m', s')
    ensures m' == Filling && s' == s
    decreases |cs|
  {
    if cs != [] {
      ExportWaits(d, s, build);
      assert cs[0].Launch?;
      RetryIdles(d, s, cs[0]);
      BusyForever(d, s, build, cs[1..], m', s');
    }
  }

  ghost predicate NeverBusy(d: nat, m: Mode, s: State, cs: seq<Choice>)
    decreases |cs|
  {
    cs == [] || (Possible(d, m, s, cs[0]) && !Busy(d, s, cs[0]) &&
                 NeverBusy(d, NextMode(d, m, s, cs[0]), NextState(d, m, s, cs[0]), cs[1..]))
  }

  /** A run without retries is no longer than its measure, whatever the processes and builds do. */
  lemma {:induction false} RunsAreShort(d: nat, m: Mode, s: State, cs: seq<Choice>, m': Mode, s': State)
    requires Reaches(d, m, s, cs, m', s') && NeverBusy(d, m, s, cs)
    ensures |cs| + Measure(m', s') <= Measure(m, s)
    decreases |cs|
  {
    hide Measure, NextState, NextMode, Possible, Busy;
    if cs != [] {
      NextProgress(d, m, s, cs[0]);
      RunsAreShort(d, NextMode(d, m, s, cs[0]), NextState(d, m, s, cs[0]), cs[1..], m', s');
    }
  }

  lemma {:induction false} StagesBound(es: seq<Exp>)
    ensures Stages(es) <= 4 * |es|
  {
    if es != [] {
      StagesBound(es[..|es| - 1]);
    }
  }

  // ----- where it can stop

  lemma {:induction false} SubsetOfSize(s: set<nat>, n: nat) returns (r: set<nat>)
    requires n <= |s|
    ensures r <= s && |r| == n
  {
    if n == 0 {
      r := {};
    } else {
      var x :| x in s;
      r := SubsetOfSize(s - {x}, n - 1);
      r := r + {x};
    }
  }

  /** The choice of a step, when there is one and builds succeed. */
  lemma SomeChoice(d: nat, m: Mode, s: State) returns (c: Choice)
    requires m != Done && !(m == Polling && s.running == [])
    ensures Possible(d, m, s, c) && (c.Launch? ==> c.build == Built)
  {
    if m == Filling && s.queue == [] {
      c := Drained;
    } else if m == Filling {
      var gpus: set<nat> := {};
      if Attempt(d, s, Built) == Launched {
        gpus := SubsetOfSize(Free(d, s.running), Head(s).Need());
      }
      c := Launch(gpus, 0, Built);
    } else {
      var exits: seq<Option<Exit>> := seq(|s.running|, _ => Some(Exit(true, true)));
      assert exits[0].Some?;
      c := Poll(exits);
    }
  }

  /** The loops are stuck exactly in a poll with nothing running. */
  lemma StuckIff(d: nat, m: Mode, s: State)
    requires m != Done
    ensures (forall c :: !Possible(d, m, s, c)) <==> m == Polling && s.running == []
  {
    if m == Polling && s.running == [] {
    } else {
      var c := SomeChoice(d, m, s);
    }
  }

  // ----- standing conditions

  /** Every stage fits the machine and its command is known. */
  predicate Fits(d: nat, e: Exp) {
    && (!e.doEval ==> e.gpu <= d && e.cmd != Other && e.cmd != Eval)
    && (e.doEval || e.evalData ==> e.evalGpu <= d)
  }

  /** Names differ; what has something left to do fits, and at most one of these exports. */
  ghost predicate Admissible(d: nat, exps: seq<Exp>, store: map<string, bool>) {
    && (forall e | e in exps && !Settled(e, store) :: Fits(d, e))
    && (forall i, j | 0 <= i < j < |exps| :: exps[i].name != exps[j].name)
    && (forall i, j | 0 <= i < j < |exps| ::
          !(NewExport(exps[i], store) && NewExport(exps[j], store)))
  }

  predicate NewExport(e: Exp, store: map<string, bool>) {
    e.cmd == Export && !Settled(e, store)
  }

  ghost predicate AllBuilt(cs: seq<Choice>) {
    forall c | c in cs :: c.Launch? ==> c.build == Built
  }

  /** Some experiment still has something to do. */
  ghost predicate SomeWork(exps: seq<Exp>, store: map<string, bool>) {
    exists i :: 0 <= i < |exps| && !Settled(exps[i], store)
  }

  // ----- distinct names

  lemma {:induction false} Occurs(es: seq<Exp>, p: Exp)
    requires p in Bag(es)
    ensures exists i :: 0 <= i < |es| && Plain(es[i]) == p
  {
    var i :| 0 <= i < |Plains(es)| && Plains(es)[i] == p;
    assert Plain(es[i]) == p;
  }

  /** Without repeated names no experiment occurs twice. */
  lemma {:induction false} OccursOnce(es: seq<Exp>, p: Exp)
    requires forall i, j | 0 <= i < j < |es| :: es[i].name != es[j].name
    ensures Bag(es)[p] <= 1
  {
    if es == [] {
    } else {
      var n := |es| - 1;
      OccursOnce(es[..n], p);
      assert es == es[..n] + [es[n]];
      BagPush(es[..n], es[n]);
      if p in Bag(es[..n]) {
        Occurs(es[..n], p);
        var i :| 0 <= i < n && Plain(es[..n][i]) == p;
        assert es[i].name != es[n].name;
      }
    }
  }

  /** Two experiments at once among the initial ones have other names and are not both new exports. */
  lemma TwoPlaces(d: nat, exps: seq<Exp>, store: map<string, bool>, a: Exp, b: Exp)
    requires Admissible(d, exps, store) && multiset{Plain(a), Plain(b)} <= Bag(exps)
    ensures a.name != b.name && !(NewExport(a, store) && NewExport(b, store))
  {
    OccursOnce(exps, Plain(a));
    assert Plain(a) != Plain(b);
    Occurs(exps, Plain(a));
    Occurs(exps, Plain(b));
    var i :| 0 <= i < |exps| && Plain(exps[i]) == Plain(a);
    var j :| 0 <= j < |exps| && Plain(exps[j]) == Plain(b);
    assert i < j || j < i;
    assert exps[i].name == a.name && exps[j].name == b.name;
    assert NewExport(exps[i], store) == NewExport(a, store) && NewExport(exps[j], store) == NewExport(b, store);
  }

  lemma BagHas(es: seq<Exp>, i: nat)
    requires i < |es|
    ensures multiset{Plain(es[i])} <= Bag(es)
  {
    assert Plains(es)[i] == Plain(es[i]);
  }

  lemma {:induction false} BagHasTwo(es: seq<Exp>, i: nat, j: nat)
    requires i < j < |es|
    ensures multiset{Plain(es[i]), Plain(es[j])} <= Bag(es)
  {
    hide Bag;
    assert es == es[..j] + es[j..];
    assert Plain(es[..j][i]) == Plain(es[i]) && Plain(es[j..][0]) == Plain(es[j]);
    BagHas(es[..j], i);
    BagHas(es[j..], 0);
    BagAppend(es[..j], es[j..]);
  }

  lemma BagAppend(a: seq<Exp>, b: seq<Exp>)
    ensures Bag(a + b) == Bag(a) + Bag(b)
  {
    assert Plains(a + b) == Plains(a) + Plains(b);
  }

  /** What every state of an admissible run has, whatever its mode; `store` is the initial one.
      What was settled at the start stays settled and is never launched. */
  ghost predicate Sound(d: nat, exps: seq<Exp>, store: map<string, bool>, s: State) {
    && Everywhere(s) == Bag(exps)
    && s.rejected == []
    && (forall e | e in s.queue :: if Settled(e, store) then Settled(e, s.store) else Fits(d, e))
    && (forall k | 0 <= k < |s.running| :: !Settled(s.running[k].exp, store) && Fits(d, s.running[k].exp))
  }

  lemma QueuedNotRunning(d: nat, exps: seq<Exp>, store: map<string, bool>, s: State, i: nat, k: nat)
    requires Admissible(d, exps, store) && Everywhere(s) == Bag(exps) && i < |s.queue| && k < |s.running|
    ensures s.running[k].exp.name != s.queue[i].name
    ensures !(NewExport(s.running[k].exp, store) && NewExport(s.queue[i], store))
  {
    BagHas(s.queue, i);
    BagHas(Exps(s.running), k);
    TwoPlaces(d, exps, store, s.queue[i], s.running[k].exp);
  }

  lemma HeadNotRunning(d: nat, exps: seq<Exp>, store: map<string, bool>, s: State)
    requires Admissible(d, exps, store) && Sound(d, exps, store, s) && s.queue != []
    ensures !NameRunning(s, s.queue[0].name)
    ensures s.queue[0].cmd == Export && !Settled(s.queue[0], s.store) ==> !ExportRunning(s)
  {
    hide Admissible, Everywhere, Fits;
    assert s.queue[0] in s.queue;
    forall k | 0 <= k < |s.running|
      ensures s.running[k].exp.name != s.queue[0].name
      ensures s.queue[0].cmd == Export && !Settled(s.queue[0], s.store) ==> s.running[k].exp.cmd != Export
    {
      QueuedNotRunning(d, exps, store, s, 0, k);
    }
  }

  lemma RunningApart(d: nat, exps: seq<Exp>, store: map<string, bool>, s: State, i: nat, j: nat)
    requires Admissible(d, exps, store) && Everywhere(s) == Bag(exps) && i < j < |s.running|
    ensures s.running[i].exp.name != s.running[j].exp.name
  {
    BagHasTwo(Exps(s.running), i, j);
    TwoPlaces(d, exps, store, s.running[i].exp, s.running[j].exp);
  }

  // ----- never stuck

  /** What keeps an admissible run alive: while filling there is a running process or an experiment
      that will be launched; a poll always has a running process, and what blocked the queue has
      not been settled. */
  ghost predicate Live(m: Mode, s: State) {
    match m
    case Filling => s.running != [] || SomeWork(s.queue, s.store)
    case Polling => s.running != [] && (s.queue == [] || !Settled(s.queue[0], s.store))
    case Done => s.running == [] && s.queue == []
  }

  lemma LaunchLive(d: nat, exps: seq<Exp>, store: map<string, bool>, s: State, gpus: set<nat>, handler: nat)
    requires Admissible(d, exps, store) && Sound(d, exps, store, s) && Live(Filling, s)
    requires Possible(d, Filling, s, Launch(gpus, handler, Built))
    ensures var c := Launch(gpus, handler, Built);
      !Busy(d, s, c) && Live(NextMode(d, Filling, s, c), NextState(d, Filling, s, c))
      && Attempt(d, s, Built) != Rejected
  {
    hide Everywhere, Disjoint;
    HeadNotRunning(d, exps, store, s);
    assert s.queue[0] in s.queue;
    var c := Launch(gpus, handler, Built);
    var s' := NextState(d, Filling, s, c);
    assert s.running == [] ==> Free(d, s.running) == Devices(d);
    match Attempt(d, s, Built)
    case Skipped =>
      if s.running == [] {
        var i :| 0 <= i < |s.queue| && !Settled(s.queue[i], s.store);
        assert s'.queue[i - 1] == s.queue[i];
      }
    case NoGpu =>
    case Launched =>
    case ExportBusy =>
    case BuildAsserts =>
    case Rejected =>
  }

  predicate NameAmong(running: seq<Run>, name: string) {
    exists k :: 0 <= k < |running| && running[k].exp.name == name
  }

  /** The head of the queue after a sweep still has something to do. */
  lemma {:induction false} SweepHead(s: State, running: seq<Run>, exits: seq<Option<Exit>>)
    requires |running| == |exits|
    requires forall i, j | 0 <= i < j < |running| :: running[i].exp.name != running[j].exp.name
    requires s.queue != [] ==> !Settled(s.queue[0], s.store) && !NameAmong(running, s.queue[0].name)
    ensures var s' := SettleFirst(s, running, exits);
      s'.queue != [] ==> (!Settled(s'.queue[0], s'.store)
        && ((s.queue != [] && s'.queue[0].name == s.queue[0].name) || NameAmong(running, s'.queue[0].name)))
  {
    if running != [] {
      var n := |running| - 1;
      SweepHead(s, running[..n], exits[..n]);
      var s1, s' := SettleFirst(s, running[..n], exits[..n]), SettleFirst(s, running, exits);
      if s1.queue != [] && s.queue != [] && s1.queue[0].name == s.queue[0].name {
        assert s1.queue[0].name != running[n].exp.name;
      } else if s1.queue != [] {
        var k :| 0 <= k < n && s1.queue[0].name == running[..n][k].exp.name;
        assert s1.queue[0].name == running[k].exp.name != running[n].exp.name;
      }
      if s'.queue != [] && s'.queue != s1.queue {
        assert s'.queue[0].name == running[n].exp.name;
      }
    }
  }

  lemma PollLive(d: nat, exps: seq<Exp>, store: map<string, bool>, s: State, exits: seq<Option<Exit>>)
    requires Admissible(d, exps, store) && Sound(d, exps, store, s) && Live(Polling, s)
    requires Possible(d, Polling, s, Poll(exits))
    ensures Live(NextMode(d, Polling, s, Poll(exits)), NextState(d, Polling, s, Poll(exits)))
  {
    forall i, j | 0 <= i < j < |s.running|
      ensures s.running[i].exp.name != s.running[j].exp.name
    {
      RunningApart(d, exps, store, s, i, j);
    }
    if s.queue != [] {
      HeadNotRunning(d, exps, store, s);
    }
    PollLiveHead(s, exits);
  }

  lemma PollLiveHead(s: State, exits: seq<Option<Exit>>)
    requires |s.running| == |exits|
    requires forall i, j | 0 <= i < j < |s.running| :: s.running[i].exp.name != s.running[j].exp.name
    requires s.queue != [] ==> !Settled(s.queue[0], s.store) && !NameRunning(s, s.queue[0].name)
    ensures Sweep(s, exits).queue != [] ==> SomeWork(Sweep(s, exits).queue, Sweep(s, exits).store)
  {
    SweepHead(s, s.running, exits);
  }

  /** A sweep changes the records of running experiments only, and queues only these. */
  lemma {:induction false} SweepFits(d: nat, store: map<string, bool>, s: State, running: seq<Run>,
        exits: seq<Option<Exit>>)
    requires |running| == |exits|
    requires forall e | e in s.queue :: if Settled(e, store) then Settled(e, s.store) else Fits(d, e)
    requires forall k | 0 <= k < |running| :: !Settled(running[k].exp, store) && Fits(d, running[k].exp)
    requires forall e, k | e in s.queue && 0 <= k < |running| :: running[k].exp.name != e.name
    ensures var s' := SettleFirst(s, running, exits);
      forall e | e in s'.queue :: if Settled(e, store) then e in s.queue && Settled(e, s'.store) else Fits(d, e)
  {
    hide Fits;
    if running != [] {
      var n := |running| - 1;
      SweepFits(d, store, s, running[..n], exits[..n]);
      EvalFits(d, store, running[n].exp);
    }
  }

  lemma EvalFits(d: nat, store: map<string, bool>, e: Exp)
    requires !Settled(e, store) && Fits(d, e)
    ensures !Settled(e.(doEval := true), store) && (e.evalData ==> Fits(d, e.(doEval := true)))
  {
  }

  lemma SweepSound(d: nat, exps: seq<Exp>, store: map<string, bool>, s: State, exits: seq<Option<Exit>>)
    requires Admissible(d, exps, store) && Sound(d, exps, store, s) && |s.running| == |exits|
    ensures Sound(d, exps, store, Sweep(s, exits))
  {
    hide Everywhere, Fits, Admissible;
    SweepConserves(s, exits);
    SettleKeeps(s, s.running, exits);
    forall e, k | e in s.queue && 0 <= k < |s.running|
      ensures s.running[k].exp.name != e.name
    {
      var i :| 0 <= i < |s.queue| && s.queue[i] == e;
      QueuedNotRunning(d, exps, store, s, i, k);
    }
    SweepFits(d, store, s, s.running, exits);
    var at := AliveFrom(s.running, exits);
  }

  lemma SkippedIff(d: nat, s: State, build: Build)
    requires s.queue != []
    ensures Attempt(d, s, build) == Skipped <==> Settled(s.queue[0], s.store)
  {
  }

  lemma LaunchSound(d: nat, exps: seq<Exp>, store: map<string, bool>, s: State, gpus: set<nat>, handler: nat)
    requires Sound(d, exps, store, s) && s.queue != [] && Attempt(d, s, Built) != Rejected
    ensures Sound(d, exps, store, RunHead(d, s, gpus, handler, Built))
  {
    hide Everywhere, Attempt;
    RunHeadConserves(d, s, gpus, handler, Built);
    SkippedIff(d, s, Built);
    assert s.queue[0] in s.queue;
    assert Settled(Head(s), store) == Settled(s.queue[0], store);
    assert !Settled(s.queue[0], s.store) ==> Fits(d, Head(s));
    assert forall e | e in s.queue[1..] :: e in s.queue;
  }

  lemma NextLive(d: nat, exps: seq<Exp>, store: map<string, bool>, m: Mode, s: State, c: Choice)
    requires Admissible(d, exps, store) && Sound(d, exps, store, s) && Live(m, s)
    requires Possible(d, m, s, c) && (c.Launch? ==> c.build == Built)
    ensures Sound(d, exps, store, NextState(d, m, s, c)) && Live(NextMode(d, m, s, c), NextState(d, m, s, c))
    ensures !Busy(d, s, c)
  {
    hide Admissible, Sound, Attempt, Sweep, Settled;
    match c
    case Launch(gpus, handler, build) =>
      LaunchLive(d, exps, store, s, gpus, handler);
      LaunchSound(d, exps, store, s, gpus, handler);
    case Drained =>
    case Poll(exits) =>
      PollLive(d, exps, store, s, exits);
      SweepSound(d, exps, store, s, exits);
  }

  lemma {:induction false} ReachesLive(d: nat, exps: seq<Exp>, store: map<string, bool>, m: Mode, s: State,
        cs: seq<Choice>, m': Mode, s': State)
    requires Admissible(d, exps, store) && Sound(d, exps, store, s) && Live(m, s)
    requires Reaches(d, m, s, cs, m', s') && AllBuilt(cs)
    ensures Sound(d, exps, store, s') && Live(m', s') && NeverBusy(d, m, s, cs)
    decreases |cs|
  {
    hide Admissible, Sound, Live, Possible, NextState, NextMode, Busy;
    if cs != [] {
      NextLive(d, exps, store, m, s, cs[0]);
      ReachesLive(d, exps, store, NextMode(d, m, s, cs[0]), NextState(d, m, s, cs[0]), cs[1..], m', s');
    }
  }

  lemma InitialLive(d: nat, exps: seq<Exp>, store: map<string, bool>)
    requires Admissible(d, exps, store) && (exps == [] || SomeWork(exps, store))
    ensures Sound(d, exps, store, InitialState(exps, store)) && Live(InitialMode(exps), InitialState(exps, store))
  {
    InitialSafe(exps, store);
  }

  // ----- the iff

  /** Where the loops stay for ever although builds succeed: in a poll with nothing running, or
      retrying the head. */
  predicate Hung(d: nat, m: Mode, s: State) {
    || (m == Polling && s.running == [])
    || (m == Filling && s.queue != [] && Retried(Attempt(d, s, Built)))
  }

  /** No run whose builds succeed gets there. */
  ghost predicate NeverHangs(d: nat, exps: seq<Exp>, store: map<string, bool>) {
    forall cs, m, s | AllBuilt(cs) && Reaches(d, InitialMode(exps), InitialState(exps, store), cs, m, s) ::
      !Hung(d, m, s)
  }

  /** With only settled experiments on the queue the inner loop skips them all. */
  lemma {:induction false} AllSkipped(d: nat, s: State) returns (cs: seq<Choice>, s': State)
    requires s.running == [] && !SomeWork(s.queue, s.store)
    ensures AllBuilt(cs) && Reaches(d, Filling, s, cs, Polling, s') && s'.running == []
    decreases |s.queue|
  {
    if s.queue == [] {
      cs, s' := [Drained], s;
      assert Reaches(d, Polling, s, cs[1..], Polling, s);
    } else {
      var c := Launch({}, 0, Built);
      var s1 := NextState(d, Filling, s, c);
      assert Settled(s.queue[0], s.store);
      assert forall i | 0 <= i < |s1.queue| :: s1.queue[i] == s.queue[i + 1];
      var more;
      more, s' := AllSkipped(d, s1);
      cs := [c] + more;
      assert cs[1..] == more;
    }
  }

  lemma LiveNotHung(d: nat, exps: seq<Exp>, store: map<string, bool>, m: Mode, s: State)
    requires Admissible(d, exps, store) && Sound(d, exps, store, s) && Live(m, s)
    ensures !Hung(d, m, s)
  {
    hide Admissible, Sound;
    if m == Filling && s.queue != [] {
      HeadNotRunning(d, exps, store, s);
    }
  }

  /** With requests that fit, known commands, other names and one export, and builds that succeed,
      the scheduler can hang exactly when there is at least one experiment and all of them are
      already done. */
  lemma NeverHangsIff(d: nat, exps: seq<Exp>, store: map<string, bool>)
    requires Admissible(d, exps, store)
    ensures NeverHangs(d, exps, store) <==> exps == [] || SomeWork(exps, store)
  {
    var m0, s0 := InitialMode(exps), InitialState(exps, store);
    if exps == [] || SomeWork(exps, store) {
      InitialLive(d, exps, store);
      forall cs, m, s | AllBuilt(cs) && Reaches(d, m0, s0, cs, m, s)
        ensures !Hung(d, m, s)
      {
        ReachesLive(d, exps, store, m0, s0, cs, m, s);
        LiveNotHung(d, exps, store, m, s);
      }
    } else {
      var cs, s := AllSkipped(d, s0);
      assert AllBuilt(cs) && Reaches(d, m0, s0, cs, Polling, s);
    }
  }

  /** In the good case every run is short, can always be continued, and when it ends every
      experiment is finished and none was rejected. */
  lemma AdmissibleFinishes(d: nat, exps: seq<Exp>, store: map<string, bool>, cs: seq<Choice>, m: Mode, s: State)
    requires Admissible(d, exps, store) && (exps == [] || SomeWork(exps, store))
    requires AllBuilt(cs) && Reaches(d, InitialMode(exps), InitialState(exps, store), cs, m, s)
    ensures |cs| <= 8 * |exps| + 1
    ensures m != Done ==> exists c :: Possible(d, m, s, c) && (c.Launch? ==> c.build == Built)
    ensures m == Done ==> s.queue == [] && s.running == [] && s.rejected == [] && Bag(s.finished) == Bag(exps)
  {
    var m0, s0 := InitialMode(exps), InitialState(exps, store);
    InitialLive(d, exps, store);
    ReachesLive(d, exps, store, m0, s0, cs, m, s);
    RunsAreShort(d, m0, s0, cs, m, s);
    StagesBound(exps);
    if m != Done {
      var c := SomeChoice(d, m, s);
    }
  }

  // ----- each condition is needed

  lemma StepFirst(d: nat, m: Mode, s: State, c: Choice, cs: seq<Choice>, m': Mode, s': State)
    requires Possible(d, m, s, c) && (c.Launch? ==> c.build == Built) && AllBuilt(cs)
    requires Reaches(d, NextMode(d, m, s, c), NextState(d, m, s, c), cs, m', s')
    ensures AllBuilt([c] + cs) && Reaches(d, m, s, [c] + cs, m', s')
  {
    assert ([c] + cs)[1..] == cs;
  }

  lemma ReachesNothing(d: nat, m: Mode, s: State)
    ensures AllBuilt([]) && Reaches(d, m, s, [], m, s)
  {
  }

  lemma HangsAt(d: nat, exps: seq<Exp>, store: map<string, bool>, cs: seq<Choice>, m: Mode, s: State)
    requires exps != [] && AllBuilt(cs) && Reaches(d, Filling, InitialState(exps, store), cs, m, s) && Hung(d, m, s)
    ensures !NeverHangs(d, exps, store)
  {
    assert Reaches(d, InitialMode(exps), InitialState(exps, store), cs, m, s);
  }

  /** A request larger than the machine, for training or for an evaluation, waits with nothing
      running. */
  lemma OversizedHangs(d: nat, e: Exp, store: map<string, bool>)
    requires e.Need() > d && e.name !in store
    ensures !NeverHangs(d, [e], store)
  {
    var s := InitialState([e], store);
    var c := Launch({}, 0, Built);
    assert Devices(d) - {} == Devices(d);
    assert Attempt(d, s, Built) == NoGpu;
    StepFirst(d, Filling, s, c, [], Polling, NextState(d, Filling, s, c));
    HangsAt(d, [e], store, [c], Polling, NextState(d, Filling, s, c));
  }

  /** Emptying the queue with nothing running leaves the poll waiting for nothing. */
  lemma DrainedHangs(d: nat, s: State)
    requires s.queue == [] && s.running == []
    ensures AllBuilt([Drained]) && Reaches(d, Filling, s, [Drained], Polling, s) && Hung(d, Polling, s)
  {
    StepFirst(d, Filling, s, Drained, [], Polling, s);
  }

  /** A command that the manager does not know is rejected, and nothing runs. */
  lemma UnknownCommandHangs(d: nat, e: Exp)
    requires !e.doEval && e.gpu <= d && (e.cmd == Other || e.cmd == Eval)
    ensures !NeverHangs(d, [e], map[])
  {
    var s0 := InitialState([e], map[]);
    var c := Launch({}, 0, Built);
    assert Free(d, s0.running) == Devices(d);
    assert Attempt(d, s0, Built) == Rejected;
    var s := NextState(d, Filling, s0, c);
    assert s.queue == [];
    DrainedHangs(d, s);
    StepFirst(d, Filling, s0, c, [Drained], Polling, s);
    HangsAt(d, [e], map[], [c] + [Drained], Polling, s);
  }

  lemma SweepOne(s: State, e: Exp, x: Exit)
    requires |s.running| == 1 && s.running[0].exp == e
    ensures Sweep(s, [Some(x)]) == Settle(s, e, x).(running := [])
  {
    var exits := [Some(x)];
    assert s.running[..0] == [] && exits[..0] == [];
    assert SettleFirst(s, s.running, exits) == Settle(SettleFirst(s, s.running[..0], exits[..0]), e, x);
    assert Alive(s.running, exits) == Alive(s.running[..0], exits[..0]) + [];
  }

  lemma SkippedAfter(d: nat, a: Exp, b: Exp, s1: State) returns (cs: seq<Choice>, s: State)
    requires !a.doEval && !a.evalData && b.name == a.name && !b.evalData
    requires s1.queue == [b] && |s1.running| == 1 && s1.running[0].exp == a
    ensures AllBuilt(cs) && Reaches(d, Polling, s1, cs, Polling, s) && s.running == []
  {
    var skip, end := Launch({}, 0, Built), Poll([Some(Exit(true, true))]);
    SweepOne(s1, a, Exit(true, true));
    var s2 := Sweep(s1, [Some(Exit(true, true))]);
    assert s2.queue == [b] && Attempt(d, s2, Built) == Skipped;
    assert SomeExit(end.exits) by {
      assert end.exits[0].Some?;
    }
    s := NextState(d, Filling, s2, skip);
    DrainedHangs(d, s);
    StepFirst(d, Filling, s2, skip, [Drained], Polling, s);
    StepFirst(d, Polling, s1, end, [skip] + [Drained], Polling, s);
    cs := [end] + ([skip] + [Drained]);
  }

  /** On a machine with room the first experiment is launched. */
  lemma FirstLaunched(d: nat, a: Exp, rest: seq<Exp>, gpus: set<nat>)
    requires !a.doEval && a.cmd != Other && a.cmd != Eval && gpus <= Devices(d) && |gpus| == a.gpu
    ensures var s0 := InitialState([a] + rest, map[]);
      && Possible(d, Filling, s0, Launch(gpus, 0, Built))
      && NextMode(d, Filling, s0, Launch(gpus, 0, Built)) == Filling
      && NextState(d, Filling, s0, Launch(gpus, 0, Built)) == State(rest, [Run(a, gpus, 0)], map[], [], [], [a])
  {
    var s0 := InitialState([a] + rest, map[]);
    assert Free(d, s0.running) == Devices(d);
    SmallerSubset(gpus, Devices(d));
    assert Head(s0) == a && Attempt(d, s0, Built) == Launched;
  }

  lemma AllInUse(d: nat, a: Exp, s: State)
    requires s.running == [Run(a, Devices(d), 0)]
    ensures Free(d, s.running) == {}
  {
    assert s.running[..0] == [] && Used(s.running) == Devices(d);
  }

  /** The second of two experiments with one name waits for the devices of the first, finds the
      record that it leaves, and is skipped. */
  lemma SameNameRun(d: nat, a: Exp, b: Exp) returns (cs: seq<Choice>, s: State)
    requires a.cmd == Sft && !a.doEval && !a.evalData && a.gpu == d
    requires b.name == a.name && b.doEval && !b.evalData
    ensures AllBuilt(cs) && Reaches(d, Filling, InitialState([a, b], map[]), cs, Polling, s) && s.running == []
  {
    var s1 := State([b], [Run(a, Devices(d), 0)], map[], [], [], [a]);
    var run, wait := Launch(Devices(d), 0, Built), Launch({}, 0, Built);
    AllInUse(d, a, s1);
    assert Attempt(d, s1, Built) == NoGpu && NextState(d, Filling, s1, wait) == s1;
    hide Reaches, Attempt, Free;
    FirstLaunched(d, a, [b], Devices(d));
    var more;
    more, s := SkippedAfter(d, a, b, s1);
    StepFirst(d, Filling, s1, wait, more, Polling, s);
    assert [a, b] == [a] + [b];
    StepFirst(d, Filling, InitialState([a, b], map[]), run, [wait] + more, Polling, s);
    cs := [run] + ([wait] + more);
  }

  /** Two experiments with one name, though each fits. */
  lemma SameNameHangs(d: nat, a: Exp, b: Exp)
    requires a.cmd == Sft && !a.doEval && !a.evalData && a.gpu == d
    requires b.name == a.name && b.doEval && !b.evalData && b.evalGpu <= d
    ensures Fits(d, a) && Fits(d, b) && !NeverHangs(d, [a, b], map[])
  {
    var cs, s := SameNameRun(d, a, b);
    HangsAt(d, [a, b], map[], cs, Polling, s);
  }

  lemma EvalWaits(d: nat, e: Exp, s1: State) returns (cs: seq<Choice>, s: State)
    requires !e.doEval && e.evalData && e.evalGpu > d
    requires s1.queue == [] && |s1.running| == 1 && s1.running[0].exp == e && s1.store == map[]
    ensures AllBuilt(cs) && Reaches(d, Filling, s1, cs, Polling, s) && Hung(d, Polling, s)
  {
    var wait, end := Launch({}, 0, Built), Poll([Some(Exit(true, true))]);
    SweepOne(s1, e, Exit(true, true));
    var s2 := Sweep(s1, [Some(Exit(true, true))]);
    assert Free(d, s2.running) == Devices(d) && Attempt(d, s2, Built) == NoGpu;
    assert SomeExit(end.exits) by {
      assert end.exits[0].Some?;
    }
    s := NextState(d, Filling, s2, wait);
    StepFirst(d, Filling, s2, wait, [], Polling, s);
    StepFirst(d, Polling, s1, end, [wait], Polling, s);
    StepFirst(d, Filling, s1, Drained, [end] + [wait], Polling, s);
    cs := [Drained] + ([end] + [wait]);
  }

  /** An evaluation larger than the machine, after a training that fits. */
  lemma OversizedEvalHangs(d: nat, e: Exp)
    requires e.cmd == Sft && !e.doEval && e.evalData && e.gpu <= d < e.evalGpu
    ensures !NeverHangs(d, [e], map[])
  {
    hide NeverHangs, NextState, NextMode, Possible, Reaches, Devices;
    var gpus := SubsetOfSize(Devices(d), e.gpu);
    FirstLaunched(d, e, [], gpus);
    assert [e] + [] == [e];
    var run := Launch(gpus, 0, Built);
    var more, s := EvalWaits(d, e, State([], [Run(e, gpus, 0)], map[], [], [], [e]));
    StepFirst(d, Filling, InitialState([e], map[]), run, more, Polling, s);
    HangsAt(d, [e], map[], [run] + more, Polling, s);
  }

  lemma SecondExportBusy(d: nat, a: Exp, b: Exp) returns (c: Choice, s: State)
    requires a.cmd == Export && b.cmd == Export && a.name != b.name && !a.doEval && !b.doEval && a.gpu <= d
    ensures AllBuilt([c]) && Reaches(d, Filling, InitialState([a, b], map[]), [c], Filling, s)
    ensures s.queue == [b] && Attempt(d, s, Built) == ExportBusy
  {
    hide NextState, NextMode, Possible, Reaches, Devices;
    var gpus := SubsetOfSize(Devices(d), a.gpu);
    FirstLaunched(d, a, [b], gpus);
    assert [a] + [b] == [a, b];
    c := Launch(gpus, 0, Built);
    s := State([b], [Run(a, gpus, 0)], map[], [], [], [a]);
    assert s.running[0].exp.cmd == Export;
    ReachesNothing(d, Filling, s);
    StepFirst(d, Filling, InitialState([a, b], map[]), c, [], Filling, s);
    assert [c] + [] == [c];
  }

  /** Two exports: the second is retried for ever while the first runs. */
  lemma TwoExportsRetry(d: nat, a: Exp, b: Exp)
    requires a.cmd == Export && b.cmd == Export && a.name != b.name && !a.doEval && !b.doEval && a.gpu <= d
    ensures exists cs, s ::
      AllBuilt(cs) && Reaches(d, Filling, InitialState([a, b], map[]), cs, Filling, s) &&
      s.queue == [b] && Attempt(d, s, Built) == ExportBusy
    ensures !NeverHangs(d, [a, b], map[])
  {
    var c, s := SecondExportBusy(d, a, b);
    hide Attempt;
    HangsAt(d, [a, b], map[], [c], Filling, s);
  }

  /** A build that raises with nothing running leaves the poll waiting for nothing. */
  lemma FailedBuildHangs(d: nat, e: Exp)
    requires !e.doEval && e.gpu <= d
    ensures exists cs, s :: Reaches(d, Filling, InitialState([e], map[]), cs, Polling, s) && s.running == []
  {
    var s0 := InitialState([e], map[]);
    var c := Launch({}, 0, Raises);
    assert Free(d, s0.running) == Devices(d);
    var s := NextState(d, Filling, s0, c);
    assert s.queue == [];
    assert [c, Drained][1..] == [Drained] && [Drained][1..] == [];
    assert Reaches(d, Polling, s, [], Polling, s);
    assert Reaches(d, Filling, s, [Drained], Polling, s);
    assert Reaches(d, Filling, s0, [c, Drained], Polling, s);
  }

  /** A build that asserts is retried for ever, also behind an experiment that runs and could
      end: that one is launched, and then nothing happens any more. */
  lemma AssertingBuildRetries(d: nat, a: Exp, b: Exp, cs: seq<Choice>, m: Mode, s': State)
    requires a.cmd == Sft && b.cmd == Rlhf && a.name != b.name && !a.doEval && !b.doEval && a.gpu + b.gpu <= d
    ensures exists first, s ::
      Reaches(d, Filling, InitialState([a, b], map[]), [first], Filling, s) && first.Launch? && first.build == Built &&
      |s.running| == 1 && s.queue == [b] && Attempt(d, s, Asserts) == BuildAsserts &&
      (Reaches(d, Filling, s, cs, m, s') && SameBuild(cs, Asserts) ==> m == Filling && s' == s)
  {
    hide NextState, NextMode, Possible, Reaches, Devices, Attempt;
    var gpus := SubsetOfSize(Devices(d), a.gpu);
    FirstLaunched(d, a, [b], gpus);
    assert [a] + [b] == [a, b];
    var c := Launch(gpus, 0, Built);
    var s := State([b], [Run(a, gpus, 0)], map[], [], [], [a]);
    OneRuns(d, s, a, b, gpus);
    ReachesNothing(d, Filling, s);
    StepFirst(d, Filling, InitialState([a, b], map[]), c, [], Filling, s);
    assert [c] + [] == [c];
    if Reaches(d, Filling, s, cs, m, s') && SameBuild(cs, Asserts) {
      RetryForever(d, s, Asserts, cs, m, s');
    }
  }

  lemma OneRuns(d: nat, s: State, a: Exp, b: Exp, gpus: set<nat>)
    requires b.cmd == Rlhf && a.name != b.name && !b.doEval && a.gpu + b.gpu <= d
    requires s == State([b], [Run(a, gpus, 0)], map[], [], [], [a]) && gpus <= Devices(d) && |gpus| == a.gpu
    ensures Head(s) == b && Attempt(d, s, Asserts) == BuildAsserts
  {
    assert s.running[..0] == [];
    assert Used(s.running) == gpus;
    SubsetLeaves(Devices(d), gpus);
  }

  lemma SubsetLeaves(a: set<nat>, b: set<nat>)
    requires b <= a
    ensures |a - b| == |a| - |b|
  {
    assert a == b + (a - b);
  }
}
