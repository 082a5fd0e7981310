/** What a run of the scheduler writes to the record files, and which evaluations it launches: both
    follow from the processes that have ended. */
module SchedulerRecords {
  import opened Scheduler
  import opened SchedulerSafety
  import opened SchedulerTermination
  import opened Wrappers

  /** A process that has ended: the experiment at the stage that it ran, and how it ended. */
  datatype Ended = Ended(exp: Exp, exit: Exit) {
    /** It returned zero, and its result was found. */
    predicate Good() {
      exit.ok && exit.metric
    }

    /** A training that is to be evaluated. */
    predicate Owes() {
      Good() && !exp.doEval && exp.evalData
    }
  }

  function EndsOf(running: seq<Run>, exits: seq<Option<Exit>>): seq<Ended>
    requires |running| == |exits|
  {
    if running == [] then [] else
    var n := |running| - 1;
    EndsOf(running[..n], exits[..n]) + (if exits[n].Some? then [Ended(running[n].exp, exits[n].value)] else [])
  }

  function EndsAt(d: nat, m: Mode, s: State, c: Choice): seq<Ended>
    requires Possible(d, m, s, c)
  {
    match c
    case Poll(exits) => EndsOf(s.running, exits)
    case _ => []
  }

  function LaunchesAt(d: nat, m: Mode, s: State, c: Choice): seq<Exp>
    requires Possible(d, m, s, c)
  {
    match c
    case Launch(_, _, build) => if Attempt(d, s, build) == Launched then [Head(s)] else []
    case _ => []
  }

  /** The processes that end in the course of a run, in order. */
  ghost function EndedIn(d: nat, m: Mode, s: State, cs: seq<Choice>): seq<Ended>
    decreases |cs|
  {
    if cs == [] || !Possible(d, m, s, cs[0]) then [] else
    EndsAt(d, m, s, cs[0]) + EndedIn(d, NextMode(d, m, s, cs[0]), NextState(d, m, s, cs[0]), cs[1..])
  }

  /** The launches of a run, in order. */
  ghost function LaunchedIn(d: nat, m: Mode, s: State, cs: seq<Choice>): seq<Exp>
    decreases |cs|
  {
    if cs == [] || !Possible(d, m, s, cs[0]) then [] else
    LaunchesAt(d, m, s, cs[0]) + LaunchedIn(d, NextMode(d, m, s, cs[0]), NextState(d, m, s, cs[0]), cs[1..])
  }

  // ----- the records of every run

  /** Whether the last process of that name with a result was an evaluation. */
  function LastResult(ended: seq<Ended>, name: string): (r: Option<bool>)
    ensures r == None <==> forall k | 0 <= k < |ended| :: !(ended[k].Good() && ended[k].exp.name == name)
    ensures r.Some? ==> exists k ::
              && 0 <= k < |ended| && ended[k].Good() && ended[k].exp.name == name && r == Some(ended[k].exp.doEval)
              && forall x | k < x < |ended| :: !(ended[x].Good() && ended[x].exp.name == name)
  {
    if ended == [] then None else
    var last := ended[|ended| - 1];
    if last.Good() && last.exp.name == name then Some(last.exp.doEval) else LastResult(ended[..|ended| - 1], name)
  }

  /** The record of a name says whether the last result under it was an evaluation's; without a
      result it is what it was. */
  predicate RecordIs(before: map<string, bool>, ended: seq<Ended>, after: map<string, bool>, name: string) {
    match LastResult(ended, name)
    case Some(eval) => name in after && after[name] == eval
    case None =>
      && (name in after <==> name in before)
      && (name in before && name in after ==> after[name] == before[name])
  }

  lemma {:induction false} LastOfConcat(a: seq<Ended>, b: seq<Ended>, name: string)
    ensures LastResult(a + b, name) == if LastResult(b, name).Some? then LastResult(b, name) else LastResult(a, name)
  {
    if b == [] {
      assert a + b == a;
    } else {
      assert (a + b)[..|a + b| - 1] == a + b[..|b| - 1];
      LastOfConcat(a, b[..|b| - 1], name);
    }
  }

  lemma NoRecords(store: map<string, bool>, name: string)
    ensures RecordIs(store, [], store, name)
  {
  }

  lemma RecordsCompose(a: map<string, bool>, e: seq<Ended>, b: map<string, bool>, f: seq<Ended>, c: map<string, bool>,
        name: string)
    requires RecordIs(a, e, b, name) && RecordIs(b, f, c, name)
    ensures RecordIs(a, e + f, c, name)
  {
    LastOfConcat(e, f, name);
    hide LastResult;
  }

  lemma SettleRecords(s: State, e: Exp, x: Exit, name: string)
    ensures RecordIs(s.store, [Ended(e, x)], Settle(s, e, x).store, name)
  {
    var ended := [Ended(e, x)];
    assert ended[..0] == [] && ended[0] == Ended(e, x);
    assert LastResult(ended, name) == if x.ok && x.metric && e.name == name then Some(e.doEval) else None;
    hide LastResult;
  }

  lemma {:induction false} SweepRecords(s: State, running: seq<Run>, exits: seq<Option<Exit>>, name: string)
    requires |running| == |exits|
    ensures RecordIs(s.store, EndsOf(running, exits), SettleFirst(s, running, exits).store, name)
  {
    hide RecordIs, Settle;
    if running == [] {
      NoRecords(s.store, name);
    } else {
      var n := |running| - 1;
      var s1 := SettleFirst(s, running[..n], exits[..n]);
      SweepRecords(s, running[..n], exits[..n], name);
      match exits[n]
      case None => assert EndsOf(running, exits) == EndsOf(running[..n], exits[..n]);
      case Some(x) =>
        SettleRecords(s1, running[n].exp, x, name);
        RecordsCompose(s.store, EndsOf(running[..n], exits[..n]), s1.store, [Ended(running[n].exp, x)],
                       Settle(s1, running[n].exp, x).store, name);
    }
  }

  lemma StepRecords(d: nat, m: Mode, s: State, c: Choice, name: string)
    requires Possible(d, m, s, c)
    ensures RecordIs(s.store, EndsAt(d, m, s, c), NextState(d, m, s, c).store, name)
  {
    hide Attempt;
    if c.Poll? {
      SweepRecords(s, s.running, c.exits, name);
    }
  }

  /** In every run, whatever the experiments, processes and builds: a record says whether the last
      process of its name with a result was an evaluation. */
  lemma {:induction false} RecordsFollowResults(d: nat, m: Mode, s: State, cs: seq<Choice>, m': Mode, s': State,
        name: string)
    requires Reaches(d, m, s, cs, m', s')
    ensures RecordIs(s.store, EndedIn(d, m, s, cs), s'.store, name)
    decreases |cs|
  {
    hide Possible, NextState, NextMode, RecordIs, EndsAt;
    if cs == [] {
      NoRecords(s.store, name);
    } else {
      var s1 := NextState(d, m, s, cs[0]);
      StepRecords(d, m, s, cs[0], name);
      RecordsFollowResults(d, NextMode(d, m, s, cs[0]), s1, cs[1..], m', s', name);
      RecordsCompose(s.store, EndsAt(d, m, s, cs[0]), s1.store,
                     EndedIn(d, NextMode(d, m, s, cs[0]), s1, cs[1..]), s'.store, name);
    }
  }

  /** The result on record for a name after a run from `store`: none, that of a training, or that of
      an evaluation. */
  function OnRecord(store: map<string, bool>, ended: seq<Ended>, name: string): Option<bool> {
    if LastResult(ended, name).Some? then LastResult(ended, name)
    else if name in store then Some(store[name])
    else None
  }

  /** In every run, whatever ended before decides what a launch attempt does with the head of the
      queue: with an evaluation on record, or a training and nothing to evaluate on, it is skipped;
      with a training on record it is launched as an evaluation; and otherwise as it was queued. */
  lemma LaunchFollowsRecord(d: nat, m0: Mode, s0: State, cs: seq<Choice>, m: Mode, s: State, build: Build)
    requires Reaches(d, m0, s0, cs, m, s) && s.queue != []
    ensures var e := s.queue[0];
      var record := OnRecord(s0.store, EndedIn(d, m0, s0, cs), e.name);
      && (Attempt(d, s, build) == Skipped <==> record == Some(true) || (record == Some(false) && !e.evalData))
      && (Attempt(d, s, build) == Launched ==>
            Head(s) == if record == Some(false) then e.(doEval := true) else e)
  {
    var e := s.queue[0];
    RecordsFollowResults(d, m0, s0, cs, m, s, e.name);
    hide EndedIn, LastResult, Reaches, Free;
  }

  // ----- admissible runs

  ghost predicate HasEval(launched: seq<Exp>, name: string) {
    exists l :: 0 <= l < |launched| && launched[l].doEval && launched[l].name == name
  }

  lemma HasEvalMore(a: seq<Exp>, b: seq<Exp>, name: string)
    ensures HasEval(a, name) || HasEval(b, name) ==> HasEval(a + b, name)
  {
    if l :| 0 <= l < |a| && a[l].doEval && a[l].name == name {
      assert (a + b)[l] == a[l];
    }
    if l :| 0 <= l < |b| && b[l].doEval && b[l].name == name {
      assert (a + b)[|a| + l] == b[l];
    }
  }

  /** What runs or has run as an evaluation was launched as one, and nothing of it was done before. */
  ghost predicate FromLaunches(store: map<string, bool>, ended: seq<Ended>, launched: seq<Exp>, running: seq<Run>) {
    && (forall k | 0 <= k < |running| :: running[k].exp.doEval ==> HasEval(launched, running[k].exp.name))
    && (forall k | 0 <= k < |ended| :: ended[k].exp.doEval ==> HasEval(launched, ended[k].exp.name))
    && (forall k | 0 <= k < |ended| :: !Settled(ended[k].exp, store))
  }

  /** A training that is to be evaluated has its evaluation on the queue or launched. */
  ghost predicate Awaited(ended: seq<Ended>, launched: seq<Exp>, queue: seq<Exp>) {
    forall k | 0 <= k < |ended| && ended[k].Owes() ::
      HasEval(launched, ended[k].exp.name) || ended[k].exp.(doEval := true) in queue
  }

  /** After an evaluation the experiment is finished, and no other process of its name ends. */
  ghost predicate EvalsAreLast(ended: seq<Ended>, finished: seq<Exp>) {
    && (forall k | 0 <= k < |ended| && ended[k].exp.doEval :: Plain(ended[k].exp) in Bag(finished))
    && (forall k, x | 0 <= k < x < |ended| && ended[k].exp.doEval :: ended[x].exp.name != ended[k].exp.name)
  }

  ghost predicate Trace(store: map<string, bool>, ended: seq<Ended>, launched: seq<Exp>, s: State) {
    && FromLaunches(store, ended, launched, s.running)
    && Awaited(ended, launched, s.queue)
    && EvalsAreLast(ended, s.finished)
    && forall name :: RecordIs(store, ended, s.store, name)
  }

  // A launch attempt.

  lemma SettledWasEvaluated(store: map<string, bool>, ended: seq<Ended>, launched: seq<Exp>, s: State, k: nat)
    requires Trace(store, ended, launched, s) && k < |ended| && ended[k].Owes()
    requires Settled(ended[k].exp, s.store)
    ensures HasEval(launched, ended[k].exp.name)
  {
    var name := ended[k].exp.name;
    assert RecordIs(store, ended, s.store, name);
    var x :| 0 <= x < |ended| && ended[x].Good() && ended[x].exp.name == name &&
      LastResult(ended, name) == Some(ended[x].exp.doEval);
  }

  lemma LaunchAwaits(d: nat, store: map<string, bool>, ended: seq<Ended>, launched: seq<Exp>, s: State, c: Choice)
    requires Trace(store, ended, launched, s) && Possible(d, Filling, s, c) && c.Launch?
    requires Attempt(d, s, c.build) != Rejected
    ensures Awaited(ended, launched + LaunchesAt(d, Filling, s, c), NextState(d, Filling, s, c).queue)
  {
    var s', more := NextState(d, Filling, s, c), LaunchesAt(d, Filling, s, c);
    forall k | 0 <= k < |ended| && ended[k].Owes()
      ensures HasEval(launched + more, ended[k].exp.name) || ended[k].exp.(doEval := true) in s'.queue
    {
      var e := ended[k].exp.(doEval := true);
      HasEvalMore(launched, more, e.name);
      if !HasEval(launched, e.name) {
        if s.queue[0] == e {
          assert Head(s) == e;
          if Attempt(d, s, c.build) == Skipped {
            SettledWasEvaluated(store, ended, launched, s, k);
          } else if Attempt(d, s, c.build) == Launched {
            assert more[0] == e;
          } else {
            assert s'.queue[0] == e;
          }
        } else {
          assert s.queue == [s.queue[0]] + s.queue[1..];
          assert e in s.queue[1..];
        }
      }
    }
  }

  lemma LaunchTrace(d: nat, store: map<string, bool>, ended: seq<Ended>, launched: seq<Exp>, s: State, c: Choice)
    requires Trace(store, ended, launched, s) && Possible(d, Filling, s, c) && c.Launch?
    requires Attempt(d, s, c.build) != Rejected
    ensures Trace(store, ended, launched + LaunchesAt(d, Filling, s, c), NextState(d, Filling, s, c))
  {
    LaunchAwaits(d, store, ended, launched, s, c);
    var s', more := NextState(d, Filling, s, c), LaunchesAt(d, Filling, s, c);
    hide Attempt, Awaited, RecordIs, Bag;
    BagPush(s.finished, s.queue[0]);
    forall name
      ensures HasEval(launched, name) || HasEval(more, name) ==> HasEval(launched + more, name)
    {
      HasEvalMore(launched, more, name);
    }
    assert |more| == 1 ==> (more[0].doEval ==> HasEval(more, more[0].name));
  }

  // A poll.

  lemma {:induction false} EndsFrom(running: seq<Run>, exits: seq<Option<Exit>>, x: nat) returns (k: nat)
    requires |running| == |exits| && x < |EndsOf(running, exits)|
    ensures k < |running| && exits[k].Some? && EndsOf(running, exits)[x] == Ended(running[k].exp, exits[k].value)
  {
    var n := |running| - 1;
    if x < |EndsOf(running[..n], exits[..n])| {
      k := EndsFrom(running[..n], exits[..n], x);
    } else {
      k := n;
    }
  }

  lemma {:induction false} EndsFromTwo(running: seq<Run>, exits: seq<Option<Exit>>, i: nat, j: nat)
    returns (a: nat, b: nat)
    requires |running| == |exits| && i < j < |EndsOf(running, exits)|
    ensures a < b < |running|
    ensures EndsOf(running, exits)[i].exp == running[a].exp && EndsOf(running, exits)[j].exp == running[b].exp
  {
    var n := |running| - 1;
    var first := EndsOf(running[..n], exits[..n]);
    assert EndsOf(running, exits)[i] == first[i];
    if j < |first| {
      a, b := EndsFromTwo(running[..n], exits[..n], i, j);
    } else {
      a := EndsFrom(running[..n], exits[..n], i);
      b := n;
    }
  }

  lemma EndsApart(running: seq<Run>, exits: seq<Option<Exit>>)
    requires |running| == |exits|
    requires forall i, j | 0 <= i < j < |running| :: running[i].exp.name != running[j].exp.name
    ensures var ended := EndsOf(running, exits);
      forall i, j | 0 <= i < j < |ended| :: ended[i].exp.name != ended[j].exp.name
  {
    hide EndsOf;
    var ended := EndsOf(running, exits);
    forall i: nat, j: nat | i < j < |ended|
      ensures ended[i].exp.name != ended[j].exp.name
    {
      var a, b := EndsFromTwo(running, exits, i, j);
    }
  }

  /** What a sweep puts on the queue and among the finished. */
  ghost predicate Swept(s: State, ended: seq<Ended>, s': State) {
    && (forall e | e in s.queue :: e in s'.queue)
    && (forall e | e in Bag(s.finished) :: e in Bag(s'.finished))
    && (forall k | 0 <= k < |ended| && ended[k].Owes() :: ended[k].exp.(doEval := true) in s'.queue)
    && (forall k | 0 <= k < |ended| && ended[k].exp.doEval :: Plain(ended[k].exp) in Bag(s'.finished))
  }

  lemma SettleSwept(s: State, e: Exp, x: Exit)
    ensures Swept(s, [Ended(e, x)], Settle(s, e, x))
  {
    hide Bag;
    BagPush(s.finished, e);
  }

  lemma SweptMore(s: State, a: seq<Ended>, s1: State, b: seq<Ended>, s2: State)
    requires Swept(s, a, s1) && Swept(s1, b, s2)
    ensures Swept(s, a + b, s2)
  {
    hide Bag;
  }

  lemma SweptNothing(s: State)
    ensures Swept(s, [], s)
  {
  }

  lemma {:induction false} SweepSwept(s: State, running: seq<Run>, exits: seq<Option<Exit>>)
    requires |running| == |exits|
    ensures Swept(s, EndsOf(running, exits), SettleFirst(s, running, exits))
  {
    hide Swept, Settle;
    if running == [] {
      SweptNothing(s);
    } else {
      var n := |running| - 1;
      SweepSwept(s, running[..n], exits[..n]);
      match exits[n]
      case None => assert EndsOf(running, exits) == EndsOf(running[..n], exits[..n]);
      case Some(x) =>
        var s1 := SettleFirst(s, running[..n], exits[..n]);
        SettleSwept(s1, running[n].exp, x);
        SweptMore(s, EndsOf(running[..n], exits[..n]), s1, [Ended(running[n].exp, x)], Settle(s1, running[n].exp, x));
    }
  }

  /** A process that runs has another name than one that has been evaluated. */
  lemma RunningNotEvaluated(d: nat, exps: seq<Exp>, store: map<string, bool>, ended: seq<Ended>, s: State, k: nat,
        x: nat)
    requires Admissible(d, exps, store) && Everywhere(s) == Bag(exps) && EvalsAreLast(ended, s.finished)
    requires k < |ended| && ended[k].exp.doEval && x < |s.running|
    ensures s.running[x].exp.name != ended[k].exp.name
  {
    hide Admissible, Bag;
    BagHas(Exps(s.running), x);
    TwoPlaces(d, exps, store, s.running[x].exp, ended[k].exp);
  }

  lemma EndsAreOthers(d: nat, exps: seq<Exp>, store: map<string, bool>, ended: seq<Ended>, s: State,
        exits: seq<Option<Exit>>, k: nat, x: nat)
    requires Admissible(d, exps, store) && Everywhere(s) == Bag(exps) && EvalsAreLast(ended, s.finished)
    requires |exits| == |s.running|
    requires var all := ended + EndsOf(s.running, exits); k < x < |all| && all[k].exp.doEval
    ensures var all := ended + EndsOf(s.running, exits); all[x].exp.name != all[k].exp.name
  {
    var more := EndsOf(s.running, exits);
    if k < |ended| <= x {
      var r := EndsFrom(s.running, exits, x - |ended|);
      RunningNotEvaluated(d, exps, store, ended, s, k, r);
    } else if |ended| <= k {
      forall i, j | 0 <= i < j < |s.running|
        ensures s.running[i].exp.name != s.running[j].exp.name
      {
        RunningApart(d, exps, store, s, i, j);
      }
      hide Admissible, Everywhere, EndsOf;
      EndsApart(s.running, exits);
      assert more[k - |ended|].exp.name != more[x - |ended|].exp.name;
    }
  }

  lemma PollLast(d: nat, exps: seq<Exp>, store: map<string, bool>, ended: seq<Ended>, s: State,
        exits: seq<Option<Exit>>)
    requires Admissible(d, exps, store) && Everywhere(s) == Bag(exps) && EvalsAreLast(ended, s.finished)
    requires |exits| == |s.running|
    ensures EvalsAreLast(ended + EndsOf(s.running, exits), Sweep(s, exits).finished)
  {
    var all := ended + EndsOf(s.running, exits);
    SweepSwept(s, s.running, exits);
    hide Bag, Everywhere, Admissible, EndsOf, SettleFirst;
    forall k: nat, x: nat | k < x < |all| && all[k].exp.doEval
      ensures all[x].exp.name != all[k].exp.name
    {
      EndsAreOthers(d, exps, store, ended, s, exits, k, x);
    }
  }

  lemma PollFromLaunches(store: map<string, bool>, ended: seq<Ended>, launched: seq<Exp>, running: seq<Run>,
        exits: seq<Option<Exit>>)
    requires FromLaunches(store, ended, launched, running) && |exits| == |running|
    requires forall k | 0 <= k < |running| :: !Settled(running[k].exp, store)
    ensures FromLaunches(store, ended + EndsOf(running, exits), launched, Alive(running, exits))
  {
    hide HasEval, Settled, EndsOf, Alive;
    var at := AliveFrom(running, exits);
    forall x | 0 <= x < |EndsOf(running, exits)|
      ensures var e := EndsOf(running, exits)[x].exp;
        (e.doEval ==> HasEval(launched, e.name)) && !Settled(e, store)
    {
      var k := EndsFrom(running, exits, x);
    }
  }

  lemma PollTrace(d: nat, exps: seq<Exp>, store: map<string, bool>, ended: seq<Ended>, launched: seq<Exp>, s: State,
        exits: seq<Option<Exit>>)
    requires Admissible(d, exps, store) && Sound(d, exps, store, s) && Trace(store, ended, launched, s)
    requires |exits| == |s.running|
    ensures Trace(store, ended + EndsOf(s.running, exits), launched, Sweep(s, exits))
  {
    hide Admissible, Everywhere, FromLaunches, EvalsAreLast, RecordIs, EndsOf, SettleFirst, Alive, Settled, Bag,
      HasEval;
    var more, s' := EndsOf(s.running, exits), Sweep(s, exits);
    PollFromLaunches(store, ended, launched, s.running, exits);
    PollLast(d, exps, store, ended, s, exits);
    SweepSwept(s, s.running, exits);
    forall name
      ensures RecordIs(store, ended + more, s'.store, name)
    {
      SweepRecords(s, s.running, exits, name);
      RecordsCompose(store, ended, s.store, more, s'.store, name);
    }
  }

  lemma NextTrace(d: nat, exps: seq<Exp>, store: map<string, bool>, ended: seq<Ended>, launched: seq<Exp>, m: Mode,
        s: State, c: Choice)
    requires Admissible(d, exps, store) && Sound(d, exps, store, s) && Live(m, s)
    requires Possible(d, m, s, c) && (c.Launch? ==> c.build == Built) && Trace(store, ended, launched, s)
    ensures Trace(store, ended + EndsAt(d, m, s, c), launched + LaunchesAt(d, m, s, c), NextState(d, m, s, c))
  {
    hide Trace, Admissible, Sound, Live, Attempt;
    match c
    case Launch(gpus, handler, build) =>
      LaunchLive(d, exps, store, s, gpus, handler);
      LaunchTrace(d, store, ended, launched, s, c);
      assert ended + [] == ended;
    case Drained =>
      assert ended + [] == ended && launched + [] == launched;
    case Poll(exits) =>
      PollTrace(d, exps, store, ended, launched, s, exits);
      assert launched + [] == launched;
  }

  lemma {:induction false} ReachesTrace(d: nat, exps: seq<Exp>, store: map<string, bool>, ended: seq<Ended>,
        launched: seq<Exp>, m: Mode, s: State, cs: seq<Choice>, m': Mode, s': State)
    requires Admissible(d, exps, store) && Sound(d, exps, store, s) && Live(m, s)
    requires Reaches(d, m, s, cs, m', s') && AllBuilt(cs) && Trace(store, ended, launched, s)
    ensures Trace(store, ended + EndedIn(d, m, s, cs), launched + LaunchedIn(d, m, s, cs), s')
    decreases |cs|
  {
    hide Admissible, Sound, Live, Possible, NextState, NextMode, Trace, EndsAt, LaunchesAt;
    if cs == [] {
      assert ended + [] == ended && launched + [] == launched;
    } else {
      var c, m1, s1 := cs[0], NextMode(d, m, s, cs[0]), NextState(d, m, s, cs[0]);
      NextLive(d, exps, store, m, s, c);
      NextTrace(d, exps, store, ended, launched, m, s, c);
      var e, l := EndsAt(d, m, s, c), LaunchesAt(d, m, s, c);
      ReachesTrace(d, exps, store, ended + e, launched + l, m1, s1, cs[1..], m', s');
      assert ended + (e + EndedIn(d, m1, s1, cs[1..])) == ended + e + EndedIn(d, m1, s1, cs[1..]);
      assert launched + (l + LaunchedIn(d, m1, s1, cs[1..])) == launched + l + LaunchedIn(d, m1, s1, cs[1..]);
    }
  }

  lemma TraceOf(d: nat, exps: seq<Exp>, store: map<string, bool>, cs: seq<Choice>, m: Mode, s: State)
    returns (ended: seq<Ended>, launched: seq<Exp>)
    requires Admissible(d, exps, store) && (exps == [] || SomeWork(exps, store))
    requires AllBuilt(cs) && Reaches(d, InitialMode(exps), InitialState(exps, store), cs, m, s)
    ensures ended == EndedIn(d, InitialMode(exps), InitialState(exps, store), cs)
    ensures launched == LaunchedIn(d, InitialMode(exps), InitialState(exps, store), cs)
    ensures Trace(store, ended, launched, s)
  {
    var m0, s0 := InitialMode(exps), InitialState(exps, store);
    InitialLive(d, exps, store);
    NothingYet(exps, store);
    ended, launched := EndedIn(d, m0, s0, cs), LaunchedIn(d, m0, s0, cs);
    hide *;
    ReachesTrace(d, exps, store, [], [], m0, s0, cs, m, s);
    assert [] + ended == ended && [] + launched == launched;
  }

  lemma NothingYet(exps: seq<Exp>, store: map<string, bool>)
    ensures Trace(store, [], [], InitialState(exps, store))
  {
  }

  /** In the good case, at any point: of an experiment that was not done before, the record says that
      it has been evaluated exactly if an evaluation of it has ended well with a result. */
  lemma EvaluatedIff(d: nat, exps: seq<Exp>, store: map<string, bool>, cs: seq<Choice>, m: Mode, s: State, e: Exp)
    requires Admissible(d, exps, store) && (exps == [] || SomeWork(exps, store))
    requires AllBuilt(cs) && Reaches(d, InitialMode(exps), InitialState(exps, store), cs, m, s)
    requires !(e.name in store && store[e.name])
    ensures var ended := EndedIn(d, InitialMode(exps), InitialState(exps, store), cs);
      e.name in s.store && s.store[e.name] <==>
      exists k :: 0 <= k < |ended| && ended[k].exp.name == e.name && ended[k].exp.doEval && ended[k].Good()
  {
    var ended, launched := TraceOf(d, exps, store, cs, m, s);
    hide *;
    EvaluatedSays(store, ended, launched, s, e.name);
  }

  lemma EvaluatedSays(store: map<string, bool>, ended: seq<Ended>, launched: seq<Exp>, s: State, name: string)
    requires Trace(store, ended, launched, s) && !(name in store && store[name])
    ensures name in s.store && s.store[name] <==>
      exists k :: 0 <= k < |ended| && ended[k].exp.name == name && ended[k].exp.doEval && ended[k].Good()
  {
    hide FromLaunches, Awaited;
    assert RecordIs(store, ended, s.store, name);
  }

  /** In the good case, when the run has ended: of every training that ended well with a result and
      that has data to be evaluated on, an evaluation has been launched. */
  lemma TrainedAreEvaluated(d: nat, exps: seq<Exp>, store: map<string, bool>, cs: seq<Choice>, s: State)
    requires Admissible(d, exps, store) && (exps == [] || SomeWork(exps, store))
    requires AllBuilt(cs) && Reaches(d, InitialMode(exps), InitialState(exps, store), cs, Done, s)
    ensures var m0, s0 := InitialMode(exps), InitialState(exps, store);
      var ended, launched := EndedIn(d, m0, s0, cs), LaunchedIn(d, m0, s0, cs);
      forall k | 0 <= k < |ended| && ended[k].Good() && !ended[k].exp.doEval && ended[k].exp.evalData ::
        exists l :: 0 <= l < |launched| && launched[l].doEval && launched[l].name == ended[k].exp.name
  {
    var ended, launched := TraceOf(d, exps, store, cs, Done, s);
    AdmissibleFinishes(d, exps, store, cs, Done, s);
    hide Reaches, EndedIn, LaunchedIn, Admissible, SomeWork;
    forall k | 0 <= k < |ended| && ended[k].Owes()
      ensures HasEval(launched, ended[k].exp.name)
    {
    }
  }
}
