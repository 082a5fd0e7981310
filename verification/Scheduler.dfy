/** The experiment scheduler as a transition system: one launch attempt, one poll sweep, and the
    loops that alternate them. */
module Scheduler {
  import opened Wrappers

  datatype Command = Sft | Rlhf | Export | Eval | Other

  /** A number of devices asked for. */
  type Request = n: nat | 1 <= n witness 1

  /** `evalData` says whether there are datasets to evaluate on, `doEval` whether the next launch
      is an evaluation. */
  datatype Exp = Exp(name: string, cmd: Command, gpu: Request, evalGpu: Request, evalData: bool, doEval: bool) {
    function Need(): Request {
      if doEval then evalGpu else gpu
    }
  }

  /** A launched experiment; `handler` is its process. */
  datatype Run = Run(exp: Exp, gpus: set<nat>, handler: nat)

  /** `store` is the record file of each name, and whether it has an evaluation result; `trained`
      lists the training and export launches in order. */
  datatype State = State(
    queue: seq<Exp>, running: seq<Run>, store: map<string, bool>,
    finished: seq<Exp>, rejected: seq<Exp>, trained: seq<Exp>)

  /** How building a command ends: with the command, with an assertion of the argument classes, or
      with another exception. */
  datatype Build = Built | Asserts | Raises

  /** `ExportBusy` and `BuildAsserts` are assertions, which keep the head on the queue. */
  datatype Outcome = Launched | Skipped | Rejected | NoGpu | ExportBusy | BuildAsserts

  predicate Retried(outcome: Outcome) {
    outcome == ExportBusy || outcome == BuildAsserts
  }

  /** How a process ended, and whether its result was found. */
  datatype Exit = Exit(ok: bool, metric: bool)

  function Used(running: seq<Run>): set<nat> {
    if running == [] then {} else Used(running[..|running| - 1]) + running[|running| - 1].gpus
  }

  function Devices(d: nat): (r: set<nat>)
    ensures forall g: nat :: g in r <==> g < d
    ensures |r| == d
  {
    if d == 0 then {} else Devices(d - 1) + {d - 1}
  }

  function Free(d: nat, running: seq<Run>): set<nat> {
    Devices(d) - Used(running)
  }

  /** The head of the queue as the launch sees it: a record without an evaluation result turns
      the experiment into an evaluation. */
  function Head(s: State): Exp
    requires s.queue != []
  {
    var e := s.queue[0];
    if e.name in s.store && e.evalData && !s.store[e.name] then e.(doEval := true) else e
  }

  /** The record of the experiment leaves nothing to do. */
  predicate Settled(e: Exp, store: map<string, bool>) {
    e.name in store && !(e.evalData && !store[e.name])
  }

  predicate NameRunning(s: State, name: string) {
    exists k :: 0 <= k < |s.running| && s.running[k].exp.name == name
  }

  predicate ExportRunning(s: State) {
    exists k :: 0 <= k < |s.running| && s.running[k].exp.cmd == Export
  }

  /** What a launch attempt does; `build` is how building its command ends. */
  function Attempt(d: nat, s: State, build: Build): Outcome
    requires s.queue != []
  {
    var e := Head(s);
    if Settled(s.queue[0], s.store) then Skipped
    else if !e.doEval && NameRunning(s, e.name) then Rejected
    else if !e.doEval && e.cmd == Export && ExportRunning(s) then ExportBusy
    else if |Free(d, s.running)| < e.Need() then NoGpu
    else if !e.doEval && (e.cmd == Other || e.cmd == Eval) then Rejected
    else match build
      case Built => Launched
      case Asserts => BuildAsserts
      case Raises => Rejected
  }

  function RunHead(d: nat, s: State, gpus: set<nat>, handler: nat, build: Build): State
    requires s.queue != []
  {
    var e, rest := Head(s), s.queue[1..];
    match Attempt(d, s, build)
    case Skipped => s.(queue := rest, finished := s.finished + [s.queue[0]])
    case Rejected => s.(queue := rest, rejected := s.rejected + [e])
    case NoGpu => s.(queue := [e] + rest)
    case ExportBusy => s.(queue := [e] + rest)
    case BuildAsserts => s.(queue := [e] + rest)
    case Launched =>
      s.(queue := rest, running := s.running + [Run(e, gpus, handler)],
         trained := if e.doEval then s.trained else s.trained + [e])
  }

  /** The end of one process, as the sweep handles it. */
  function Settle(s: State, e: Exp, x: Exit): State {
    if x.ok && x.metric && !e.doEval then
      var s1 := s.(store := s.store[e.name := false]);
      if e.evalData then s1.(queue := [e.(doEval := true)] + s1.queue) else s1.(finished := s1.finished + [e])
    else if x.ok && x.metric then s.(store := s.store[e.name := true], finished := s.finished + [e])
    else s.(finished := s.finished + [e])
  }

  function SettleFirst(s: State, running: seq<Run>, exits: seq<Option<Exit>>): State
    requires |running| == |exits|
  {
    if running == [] then s else
    var n := |running| - 1;
    var s1 := SettleFirst(s, running[..n], exits[..n]);
    match exits[n]
    case None => s1
    case Some(x) => Settle(s1, running[n].exp, x)
  }

  function Alive(running: seq<Run>, exits: seq<Option<Exit>>): seq<Run>
    requires |running| == |exits|
  {
    if running == [] then [] else
    var n := |running| - 1;
    Alive(running[..n], exits[..n]) + (if exits[n].None? then [running[n]] else [])
  }

  /** One sweep of the poll, taken as atomic. */
  function Sweep(s: State, exits: seq<Option<Exit>>): State
    requires |s.running| == |exits|
  {
    SettleFirst(s, s.running, exits).(running := Alive(s.running, exits))
  }

  predicate SomeExit(exits: seq<Option<Exit>>) {
    exists k :: 0 <= k < |exits| && exits[k].Some?
  }

  // ----- the two loops

  /** Filling: the inner loop is at the head of the queue.  Polling: inside `_poll`. */
  datatype Mode = Filling | Polling | Done

  datatype Choice = Launch(gpus: set<nat>, handler: nat, build: Build) | Drained | Poll(exits: seq<Option<Exit>>)

  predicate Possible(d: nat, m: Mode, s: State, c: Choice) {
    match c
    case Launch(gpus, _, build) =>
      m == Filling && s.queue != [] &&
      (Attempt(d, s, build) == Launched ==> gpus <= Free(d, s.running) && |gpus| == Head(s).Need())
    case Drained => m == Filling && s.queue == []
    case Poll(exits) => m == Polling && |exits| == |s.running| && SomeExit(exits)
  }

  function NextState(d: nat, m: Mode, s: State, c: Choice): State
    requires Possible(d, m, s, c)
  {
    match c
    case Launch(gpus, handler, build) => RunHead(d, s, gpus, handler, build)
    case Drained => s
    case Poll(exits) => Sweep(s, exits)
  }

  function NextMode(d: nat, m: Mode, s: State, c: Choice): Mode
    requires Possible(d, m, s, c)
  {
    match c
    case Launch(_, _, build) => if Attempt(d, s, build) == NoGpu then Polling else Filling
    case Drained => Polling
    case Poll(exits) =>
      var s' := Sweep(s, exits);
      if s'.queue == [] && s'.running == [] then Done else Filling
  }

  ghost predicate Reaches(d: nat, m: Mode, s: State, cs: seq<Choice>, m': Mode, s': State)
    decreases |cs|
  {
    if cs == [] then m' == m && s' == s
    else Possible(d, m, s, cs[0]) &&
         Reaches(d, NextMode(d, m, s, cs[0]), NextState(d, m, s, cs[0]), cs[1..], m', s')
  }

  function InitialState(exps: seq<Exp>, store: map<string, bool>): State {
    State(exps, [], store, [], [], [])
  }

  function InitialMode(exps: seq<Exp>): Mode {
    if exps == [] then Done else Filling
  }
}
