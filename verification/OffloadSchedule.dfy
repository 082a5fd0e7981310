/** One training iteration as the hooks and the group commits drive a handler: push the saved
    tensors of each layer and commit it, then commit backward layer by layer and pop.  Written
    as a machine with a program counter, so that a reachable state is a state after n steps. */
module OffloadSchedule {
  import opened OffloadHandler
  import opened Tensors
  import WindowMap
  import opened Wrappers

  /** The i-th tensor saved in layer g. */
  datatype Pos = Pos(g: nat, i: nat)

  /** Forward(g, i): i tensors of layer g pushed.  Backward(g, k): layer g committed backward and
      k of its tensors popped. */
  datatype PC = Forward(g: nat, i: nat) | Backward(g: nat, k: nat) | Finished

  /** What an iteration saves, layer by layer, and in which order autograd asks for it back. */
  datatype Job = Job(groups: nat, program: seq<seq<Saved>>, pops: seq<seq<nat>>) {

    ghost predicate Valid() {
      && 1 <= groups <= |program|
      && |pops| == |program|
      && (forall g, i | 0 <= g < |program| && 0 <= i < |program[g]| :: program[g][i].tensor.WellFormed())
      && (forall g, x | 0 <= g < |pops| && 0 <= x < |pops[g]| :: pops[g][x] < |program[g]|)
      && (forall g, x, y | 0 <= g < |pops| && 0 <= x < y < |pops[g]| :: pops[g][x] != pops[g][y])
    }

    /** Every tensor the handler kept is asked for. */
    ghost predicate Complete()
      requires Valid()
    {
      forall g, i | 0 <= g < |program| && 0 <= i < |program[g]| && program[g][i].Kept() :: i in pops[g]
    }

    ghost predicate InRange(pc: PC)
      requires Valid()
    {
      match pc
      case Forward(g, i) => g <= |program| && i <= (if g < |program| then |program[g]| else 0)
      case Backward(g, k) => g < |program| && k <= |pops[g]|
      case Finished => true
    }

    ghost predicate Settings(c: Config) {
      c.groups == groups && c.layers == |program| && WindowMap.Good(groups, |program|, c.window)
    }
  }

  /** A handler, the identifiers autograd holds, what the pops returned, and when each group was
      bulk-offloaded and bulk-reloaded (the group, and the layer whose commit did it). */
  datatype Run = Run(
    h: Handler,
    ids: map<Pos, Ident>, outs: map<Pos, Tensor>,
    offloads: seq<(nat, nat)>, reloads: seq<(nat, nat)>,
    pc: PC)

  const START := Run(EMPTY, map[], map[], [], [], Forward(0, 0))

  function Stamp(groups: seq<nat>, at: nat): seq<(nat, nat)> {
    seq(|groups|, x requires 0 <= x < |groups| => (groups[x], at))
  }

  ghost function StepBackward(c: Config, s: Run, g: nat): Result<Run, Error> {
    var r := CommitBackward(c, s.h);
    if r.Err? then Err(r.error)
    else Ok(s.(h := r.value.0, reloads := s.reloads + Stamp(r.value.1, g), pc := Backward(g, 0)))
  }

  ghost function Next(c: Config, j: Job, s: Run): Result<Run, Error>
    requires j.Valid() && j.InRange(s.pc)
  {
    match s.pc
    case Forward(g, i) =>
      if g == |j.program| then StepBackward(c, s, g - 1)
      else if i < |j.program[g]| then
        var r := Push(c, s.h, j.program[g][i]);
        if r.Err? then Err(r.error)
        else Ok(s.(h := r.value.0, ids := s.ids[Pos(g, i) := r.value.1], pc := Forward(g, i + 1)))
      else
        var r := CommitForward(c, s.h);
        if r.Err? then Err(r.error)
        else Ok(s.(h := r.value.0, offloads := s.offloads + Stamp(r.value.1, g), pc := Forward(g + 1, 0)))
    case Backward(g, k) =>
      if k < |j.pops[g]| then
        var p := Pos(g, j.pops[g][k]);
        if p !in s.ids then Err(TagMissing) else
        var r := Pop(s.h, s.ids[p]);
        if r.Err? then Err(r.error)
        else Ok(s.(h := r.value.0, outs := s.outs[p := r.value.1], pc := Backward(g, k + 1)))
      else if g > 0 then StepBackward(c, s, g - 1)
      else Ok(s.(pc := Finished))
    case Finished => Ok(s)
  }

  /** The state after n steps, or the exception that ended the run before. */
  ghost function After(c: Config, j: Job, n: nat): (r: Result<Run, Error>)
    requires j.Valid()
    ensures r.Ok? ==> j.InRange(r.value.pc)
  {
    if n == 0 then Ok(START) else
    var r := After(c, j, n - 1);
    if r.Err? then r else Next(c, j, r.value)
  }

  // What is left of an iteration: its phase, the layers of the phase, the steps of the layer.

  function Phase(pc: PC): nat {
    if pc.Forward? then 2 else if pc.Backward? then 1 else 0
  }

  ghost function LayersLeft(j: Job, pc: PC): nat
    requires j.Valid() && j.InRange(pc)
  {
    if pc.Forward? then |j.program| - pc.g else if pc.Backward? then pc.g else 0
  }

  ghost function StepsLeft(j: Job, pc: PC): nat
    requires j.Valid() && j.InRange(pc)
  {
    if pc.Forward? then (if pc.g < |j.program| then |j.program[pc.g]| - pc.i else 0)
    else if pc.Backward? then |j.pops[pc.g]| - pc.k
    else 0
  }

  /** The rest of an iteration, to its end. */
  ghost function Drive(c: Config, j: Job, s: Run): Result<Run, Error>
    requires j.Valid() && j.InRange(s.pc)
    decreases Phase(s.pc), LayersLeft(j, s.pc), StepsLeft(j, s.pc)
  {
    if s.pc.Finished? then Ok(s) else
    var r := Next(c, j, s);
    if r.Err? then r else Drive(c, j, r.value)
  }
}
