/** Iterations one after another on one handler: a tag that one of them leaves is taken when the
    next one pushes it. */
module OffloadRepeated {
  import opened OffloadHandler
  import opened OffloadInvariant
  import opened OffloadIteration
  import opened OffloadSchedule
  import opened OffloadTheorems
  import opened Tensors
  import opened Wrappers

  ghost function DriveAll(c: Config, js: seq<Job>, h: Handler): Result<Handler, Error>
    requires forall j | j in js :: j.Valid()
  {
    if js == [] then Ok(h) else
    var r := Drive(c, js[0], START.(h := h));
    if r.Err? then Err(r.error) else DriveAll(c, js[1..], r.value.h)
  }

  /** A tag that the handler holds and that the iteration has still to push. */
  ghost predicate Ahead(j: Job, s: Run, t: Tag)
    requires j.Valid() && j.InRange(s.pc)
  {
    && s.pc.Forward? && s.h.group == s.pc.g
    && t in s.h.state && IsTag(j, t) && t.group >= s.pc.g
    && s.h.count == |Stored(j.program[s.pc.g][..s.pc.i])|
    && (t.group == s.pc.g ==> t.count >= s.h.count)
  }

  lemma AheadPush(c: Config, j: Job, s: Run, t: Tag)
    requires j.Valid() && j.InRange(s.pc) && Ahead(j, s, t) && s.pc.i < |j.program[s.pc.g]|
    ensures var r := Next(c, j, s);
            r.Ok? ==> j.InRange(r.value.pc) && Ahead(j, r.value, t)
  {
    StoredGrows(j.program[s.pc.g], s.pc.i);
    hide Stored;
  }

  lemma CommitKeepsTags(c: Config, h: Handler)
    ensures var r := CommitForward(c, h);
            r.Ok? ==> r.value.0.state.Keys == h.state.Keys && r.value.0.group == h.group + 1 && r.value.0.count == 0
  {
    hide GroupOnDevice, Collect;
  }

  lemma AheadCommit(c: Config, j: Job, s: Run, t: Tag)
    requires j.Valid() && j.InRange(s.pc) && Ahead(j, s, t) && s.pc.i == |j.program[s.pc.g]|
    ensures var r := Next(c, j, s);
            r.Ok? ==> j.InRange(r.value.pc) && Ahead(j, r.value, t)
  {
    var xs := j.program[s.pc.g];
    assert xs[..|xs|] == xs;
    CommitKeepsTags(c, s.h);
    hide CommitForward;
    if s.pc.g + 1 < |j.program| {
      assert j.program[s.pc.g + 1][..0] == [];
    }
  }

  lemma {:induction false} AheadRaises(c: Config, j: Job, s: Run, t: Tag)
    requires j.Valid() && j.InRange(s.pc) && Ahead(j, s, t)
    ensures Drive(c, j, s).Err?
    decreases Phase(s.pc), LayersLeft(j, s.pc), StepsLeft(j, s.pc)
  {
    if s.pc.i < |j.program[s.pc.g]| {
      AheadPush(c, j, s, t);
    } else {
      AheadCommit(c, j, s, t);
    }
    DriveUnfolds(c, j, s);
    Descends(c, j, s);
    hide *;
    if Next(c, j, s).Ok? {
      AheadRaises(c, j, Next(c, j, s).value, t);
    }
  }

  /** Whatever iteration comes next: if it pushes a tag that is still there, it raises. */
  lemma LeftoverRaises(c: Config, j: Job, next: Job, t: Tag)
    requires j.Valid() && j.Settings(c) && Drive(c, j, START).Ok? && next.Valid()
    requires t in Drive(c, j, START).value.h.state && IsTag(next, t)
    ensures Drive(c, next, START.(h := Drive(c, j, START).value.h)).Err?
  {
    IterationResets(c, j);
    assert next.program[0][..0] == [];
    hide Drive;
    AheadRaises(c, next, START.(h := Drive(c, j, START).value.h), t);
  }

  /** Iterations that ask for all they keep compose: they run to their end exactly when the copies
      of each fit, and leave the handler as new. */
  lemma {:induction false} IterationsCompose(c: Config, js: seq<Job>)
    requires forall j | j in js :: j.Valid() && j.Settings(c) && j.Complete()
    ensures DriveAll(c, js, EMPTY).Ok? <==> forall j | j in js :: AllFit(c, j)
    ensures DriveAll(c, js, EMPTY).Ok? ==> DriveAll(c, js, EMPTY).value == EMPTY
  {
    if js != [] {
      var j := js[0];
      IterationFinishes(c, j);
      hide AllFit, Drive;
      assert START.(h := EMPTY) == START;
      if Drive(c, j, START).Ok? {
        IterationResets(c, j);
        IterationsCompose(c, js[1..]);
      }
      assert js == [j] + js[1..];
    }
  }

  /** Each iteration pushes at least the tags of the one before, as steps of one model do. */
  ghost predicate Repeats(js: seq<Job>) {
    forall x | 0 <= x < |js| - 1 :: forall t | IsTag(js[x], t) :: IsTag(js[x + 1], t)
  }

  /** Such iterations run to their end exactly when the copies of each fit and each but the last
      asks for all it keeps. */
  lemma {:induction false} IterationsRepeat(c: Config, js: seq<Job>)
    requires forall j | j in js :: j.Valid() && j.Settings(c)
    requires Repeats(js)
    ensures DriveAll(c, js, EMPTY).Ok? <==>
            (forall j | j in js :: AllFit(c, j)) && forall x | 0 <= x < |js| - 1 :: js[x].Complete()
  {
    if js != [] {
      var j, rest := js[0], js[1..];
      assert js == [j] + rest;
      IterationFinishes(c, j);
      hide AllFit, Drive;
      assert START.(h := EMPTY) == START;
      if Drive(c, j, START).Ok? && rest != [] {
        if j.Complete() {
          IterationResets(c, j);
          IterationsRepeat(c, rest);
        } else {
          var t := IncompleteLeaves(c, j, Drive(c, j, START).value);
          LeftoverRaises(c, j, rest[0], t);
        }
      }
    }
  }

  /** One model, one schedule: a second iteration runs exactly when the first asks for all it keeps. */
  lemma SecondIteration(c: Config, j: Job)
    requires j.Valid() && j.Settings(c)
    ensures DriveAll(c, [j, j], EMPTY).Ok? <==> AllFit(c, j) && j.Complete()
  {
    IterationsRepeat(c, [j, j]);
  }

  /** The iteration of `OneLeft` runs once and not twice. */
  lemma OneLeftRunsOnce(a: Tensor)
    requires a.WellFormed()
    ensures OneLeft(a).Valid() && OneLeft(a).Settings(TWO_OF_THREE)
    ensures DriveAll(TWO_OF_THREE, [OneLeft(a)], EMPTY).Ok?
    ensures DriveAll(TWO_OF_THREE, [OneLeft(a), OneLeft(a)], EMPTY).Err?
  {
    var j := OneLeft(a);
    OneLeftFits(a);
    assert j.program[2][0].Kept() && 0 !in j.pops[2];
    hide AllFit;
    IterationsRepeat(TWO_OF_THREE, [j]);
    SecondIteration(TWO_OF_THREE, j);
  }
}
