/** A whole run of the streaming packer: the main process starts each round with the queues and
    the workers as the round before left them. */
module StreamRun {
  import opened BinPacking
  import opened Collections
  import opened StreamPacking
  import opened Wrappers

  datatype Settings<!R, !E> = Settings(workers: nat, pack: Packer<E>, interval: nat, encode: Encoder<R, E>)

  datatype Phase = Working | Finished | Raised

  /** `rest` is what the iterator had not handed out when the round began, `data` the bin carried
      over.  The round holds the queues and the workers, and the main process's own counts. */
  datatype Run<R, E> = Run(
    rest: seq<R>,
    round: Round<R, E>,
    data: seq<Sample<E>>,
    emitted: seq<seq<Sample<E>>>,
    phase: Phase)

  /** A step of the round, or the main process packing what it has fetched. */
  datatype Move = In(step: Step) | Close

  function Begin<R, E>(stream: seq<R>): Run<R, E> {
    Run(stream, NoRound(), [], [], if stream == [] then Finished else Working)
  }

  function Batch<R, E>(c: Settings<R, E>, s: Run<R, E>): seq<R> {
    s.rest[..Min(c.interval, |s.rest|)]
  }

  predicate CanMove<R, E>(c: Settings<R, E>, s: Run<R, E>, move: Move) {
    s.phase == Working &&
    match move
    case In(step) => Enabled(c.workers, Batch(c, s), s.round, step)
    case Close => s.round.put == |s.round.received| == |Batch(c, s)|
  }

  /** An answer with another index than the round's samples has no place to go to. */
  predicate Placeable<E>(n: nat, answers: seq<Answer<E>>) {
    forall k | 0 <= k < |answers| :: answers[k].data.Some? ==> 0 <= answers[k].index < n
  }

  /** Queues and workers stay as they are. */
  function CloseRound<R, E>(c: Settings<R, E>, s: Run<R, E>): Run<R, E>
    requires CanMove(c, s, Close)
  {
    var n := s.round.put;
    if !Placeable(n, s.round.received) then s.(phase := Raised) else
    var finished := n != c.interval;
    var (bins, carry) := CalculateMatchedGroup(c.pack, s.data + Kept(Placed(n, s.round.received)), finished);
    var s' := s.(data := carry, emitted := s.emitted + bins);
    if finished then s'.(phase := Finished)
    else s'.(rest := s.rest[n..], round := s.round.(put := 0, received := []))
  }

  function After<R, E>(c: Settings<R, E>, s: Run<R, E>, move: Move): Run<R, E>
    requires CanMove(c, s, move)
  {
    match move
    case In(step) => s.(round := Next(c.workers, c.encode, Batch(c, s), s.round, step))
    case Close => CloseRound(c, s)
  }

  ghost predicate Runs<R, E>(c: Settings<R, E>, s: Run<R, E>, moves: seq<Move>, t: Run<R, E>)
    decreases |moves|
  {
    if moves == [] then t == s
    else CanMove(c, s, moves[0]) && Runs(c, After(c, s, moves[0]), moves[1..], t)
  }

  /** The round is sound for its own batch, and what is emitted and what is to come are together
      what the stream is to emit. */
  ghost predicate RunInv<R, E>(c: Settings<R, E>, stream: seq<R>, s: Run<R, E>)
    requires c.interval > 0
  {
    var all := Emitted(c.pack, c.interval, c.encode, stream, []);
    && RoundInv(c.workers, c.encode, Batch(c, s), s.round)
    && match s.phase
       case Working => s.emitted + Emitted(c.pack, c.interval, c.encode, s.rest, s.data) == all
       case Finished => s.emitted == all
       case Raised => false
  }

  lemma BeginInv<R, E>(c: Settings<R, E>, stream: seq<R>)
    requires c.interval > 0
    ensures RunInv(c, stream, Begin(stream))
  {
    hide Emitted, RoundInv;
    NewRoundInv(c.workers, c.encode, Batch(c, Begin(stream)));
    if stream == [] {
      NothingEmitted(c.pack, c.interval, c.encode);
    }
  }

  /** A round that has fetched all its answers leaves nothing on the queues or with the workers. */
  lemma ClosedRound<R, E>(c: Settings<R, E>, batch: seq<R>, round: Round<R, E>)
    requires RoundInv(c.workers, c.encode, batch, round) && round.put == |round.received| == |batch|
    ensures round.(put := 0, received := []) == NoRound()
    ensures Answers(c.encode, batch, round.received) && Placeable(|batch|, round.received)
  {
    FetchedAll(c.workers, c.encode, batch, round);
  }

  lemma CloseUnfolds<R, E>(c: Settings<R, E>, s: Run<R, E>)
    requires CanMove(c, s, Close) && Placeable(s.round.put, s.round.received)
    ensures var n := s.round.put;
      var r := CalculateMatchedGroup(c.pack, s.data + Kept(Placed(n, s.round.received)), n != c.interval);
      var s' := s.(data := r.1, emitted := s.emitted + r.0);
      n <= |s.rest| && CloseRound(c, s) ==
      if n != c.interval then s'.(phase := Finished)
      else s'.(rest := s.rest[n..], round := s.round.(put := 0, received := []))
  {
    hide CalculateMatchedGroup, Kept, Placed, Placeable;
  }

  lemma CloseInv<R, E>(c: Settings<R, E>, stream: seq<R>, s: Run<R, E>)
    requires c.interval > 0 && RunInv(c, stream, s) && CanMove(c, s, Close)
    ensures RunInv(c, stream, CloseRound(c, s))
  {
    hide CloseRound, Emitted, RoundInv, Placed, Kept, Encoded, Answers, Placeable, CalculateMatchedGroup;
    var batch := Batch(c, s);
    ClosedRound(c, batch, s.round);
    PlacedEncoded(c.encode, batch, s.round.received);
    EmittedUnfolds(c.pack, c.interval, c.encode, s.rest, s.data);
    CloseUnfolds(c, s);
    NewRoundInv(c.workers, c.encode, Batch(c, CloseRound(c, s)));
  }

  lemma AfterInv<R, E>(c: Settings<R, E>, stream: seq<R>, s: Run<R, E>, move: Move)
    requires c.interval > 0 && RunInv(c, stream, s) && CanMove(c, s, move)
    ensures RunInv(c, stream, After(c, s, move))
  {
    hide Emitted, RoundInv, CloseRound, Next, Enabled;
    match move
    case In(step) => NextInv(c.workers, c.encode, Batch(c, s), s.round, step);
    case Close => CloseInv(c, stream, s);
  }

  lemma {:induction false} RunsInv<R, E>(c: Settings<R, E>, stream: seq<R>, s: Run<R, E>, moves: seq<Move>,
        t: Run<R, E>)
    requires c.interval > 0 && RunInv(c, stream, s) && Runs(c, s, moves, t)
    ensures RunInv(c, stream, t)
    decreases |moves|
  {
    hide RunInv, After, CanMove;
    if moves != [] {
      AfterInv(c, stream, s, moves[0]);
      RunsInv(c, stream, After(c, s, moves[0]), moves[1..], t);
    }
  }

  /** In every interleaving of the main process and the workers, over all rounds: no answer meets
      another round, and when the run ends it has emitted what the specification says. */
  lemma EveryInterleavingEmits<R, E>(c: Settings<R, E>, stream: seq<R>, moves: seq<Move>, t: Run<R, E>)
    requires c.interval > 0 && Runs(c, Begin(stream), moves, t)
    ensures t.phase != Raised
    ensures t.phase == Finished ==> t.emitted == Emitted(c.pack, c.interval, c.encode, stream, [])
  {
    BeginInv(c, stream);
    RunsInv(c, stream, Begin(stream), moves, t);
    hide Emitted, RoundInv, Runs;
  }

  function MovesLeft<R, E>(s: Run<R, E>): int {
    5 * |s.rest| - 4 * s.round.put + 3 * |s.round.inQueue| + 2 * |s.round.held| + |s.round.outQueue|
    + if s.phase == Working then 1 else 0
  }

  lemma MoveIsProgress<R, E>(c: Settings<R, E>, stream: seq<R>, s: Run<R, E>, move: Move)
    requires c.interval > 0 && RunInv(c, stream, s) && CanMove(c, s, move)
    ensures MovesLeft(After(c, s, move)) < MovesLeft(s)
  {
    hide Emitted, CalculateMatchedGroup, Kept, Placed, Ids;
    if move.Close? {
      ClosedRound(c, Batch(c, s), s.round);
    }
  }

  lemma {:induction false} MovesBounded<R, E>(c: Settings<R, E>, stream: seq<R>, s: Run<R, E>, moves: seq<Move>,
        t: Run<R, E>)
    requires c.interval > 0 && RunInv(c, stream, s) && Runs(c, s, moves, t)
    ensures |moves| + MovesLeft(t) <= MovesLeft(s)
    decreases |moves|
  {
    hide RunInv, After, CanMove, MovesLeft;
    if moves != [] {
      AfterInv(c, stream, s, moves[0]);
      MoveIsProgress(c, stream, s, moves[0]);
      MovesBounded(c, stream, After(c, s, moves[0]), moves[1..], t);
    }
  }

  /** With a worker alive every run can go on until it ends, and ends after at most five moves for
      each sample and one more. */
  lemma RunEnds<R, E>(c: Settings<R, E>, stream: seq<R>, moves: seq<Move>, t: Run<R, E>)
    requires c.interval > 0 && c.workers > 0 && Runs(c, Begin(stream), moves, t)
    ensures t.phase == Working ==> exists move :: CanMove(c, t, move)
    ensures |moves| <= 5 * |stream| + 1
  {
    BeginInv(c, stream);
    RunsInv(c, stream, Begin(stream), moves, t);
    MovesBounded(c, stream, Begin(stream), moves, t);
    hide Emitted, Ids, Runs;
    if t.phase == Working {
      var batch := Batch(c, t);
      if |t.round.received| < |batch| {
        RoundNeverStuck(c.workers, c.encode, batch, t.round);
        var step :| Enabled(c.workers, batch, t.round, step);
        assert CanMove(c, t, In(step));
      } else {
        assert CanMove(c, t, Close);
      }
    }
  }
}
