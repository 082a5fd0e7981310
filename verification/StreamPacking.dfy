/** The streaming packer: in each round the main process puts up to an interval of samples on a
    queue, workers encode them in any order, and the results go back into input order. */
module StreamPacking {
  import opened BinPacking
  import opened Collections
  import opened Wrappers

  /** A sample with its index in the round; a result has the encoded sample, or nothing when the
      encoding failed. */
  datatype Task<+R> = Task(index: int, raw: R)
  datatype Answer<+E> = Answer(index: int, data: Option<Sample<E>>)

  type Encoder<!R, E> = R -> Option<Sample<E>>

  // ----- one round, step by step

  datatype Round<R, E> = Round(
    put: nat,                    // samples put on the queue
    inQueue: seq<Task<R>>,
    held: seq<Task<R>>,          // taken by a worker and not answered
    outQueue: seq<Answer<E>>,
    received: seq<Answer<E>>)    // fetched by the main process

  datatype Step = Put | Take | Give(k: nat) | Get

  /** The main process puts all samples first and then fetches; a get waits for the queue. */
  predicate Enabled<R, E>(workers: nat, batch: seq<R>, s: Round<R, E>, step: Step) {
    match step
    case Put => s.put < |batch|
    case Take => s.inQueue != [] && |s.held| < workers
    case Give(k) => k < |s.held|
    case Get => s.put == |batch| && |s.received| < |batch| && s.outQueue != []
  }

  function Next<R, E>(workers: nat, encode: Encoder<R, E>, batch: seq<R>, s: Round<R, E>, step: Step): Round<R, E>
    requires Enabled(workers, batch, s, step)
  {
    match step
    case Put => s.(put := s.put + 1, inQueue := s.inQueue + [Task(s.put, batch[s.put])])
    case Take => s.(inQueue := s.inQueue[1..], held := s.held + [s.inQueue[0]])
    case Give(k) => s.(held := Remove(s.held, k),
                       outQueue := s.outQueue + [Answer(s.held[k].index, encode(s.held[k].raw))])
    case Get => s.(outQueue := s.outQueue[1..], received := s.received + [s.outQueue[0]])
  }

  ghost predicate Reaches<R, E>(workers: nat, encode: Encoder<R, E>, batch: seq<R>, s: Round<R, E>, steps: seq<Step>,
        t: Round<R, E>)
    decreases |steps|
  {
    if steps == [] then t == s
    else Enabled(workers, batch, s, steps[0]) &&
         Reaches(workers, encode, batch, Next(workers, encode, batch, s, steps[0]), steps[1..], t)
  }

  function NoRound<R, E>(): Round<R, E> {
    Round(0, [], [], [], [])
  }

  function TaskIds<R>(tasks: seq<Task<R>>): (r: seq<int>)
    ensures |r| == |tasks| && forall k | 0 <= k < |r| :: r[k] == tasks[k].index
  {
    seq(|tasks|, k requires 0 <= k < |tasks| => tasks[k].index)
  }

  function AnswerIds<E>(answers: seq<Answer<E>>): (r: seq<int>)
    ensures |r| == |answers| && forall k | 0 <= k < |r| :: r[k] == answers[k].index
  {
    seq(|answers|, k requires 0 <= k < |answers| => answers[k].index)
  }

  /** The indices in the round, wherever their samples are. */
  ghost function Ids<R, E>(s: Round<R, E>): multiset<int> {
    multiset(TaskIds(s.inQueue)) + multiset(TaskIds(s.held)) + multiset(AnswerIds(s.outQueue))
      + multiset(AnswerIds(s.received))
  }

  ghost predicate TasksOk<R>(tasks: seq<Task<R>>, batch: seq<R>) {
    forall t | t in tasks :: 0 <= t.index < |batch| && t.raw == batch[t.index]
  }

  ghost predicate AnswersOk<R, E>(encode: Encoder<R, E>, answers: seq<Answer<E>>, batch: seq<R>) {
    forall a | a in answers :: 0 <= a.index < |batch| && a.data == encode(batch[a.index])
  }

  ghost predicate RoundInv<R, E>(workers: nat, encode: Encoder<R, E>, batch: seq<R>, s: Round<R, E>) {
    && s.put <= |batch| && |s.held| <= workers
    && Ids(s) == multiset(Iota(s.put))
    && |s.inQueue| + |s.held| + |s.outQueue| + |s.received| == s.put
    && TasksOk(s.inQueue, batch) && TasksOk(s.held, batch)
    && AnswersOk(encode, s.outQueue, batch) && AnswersOk(encode, s.received, batch)
  }

  lemma TaskIdsSnoc<R>(tasks: seq<Task<R>>, t: Task<R>)
    ensures multiset(TaskIds(tasks + [t])) == multiset(TaskIds(tasks)) + multiset{t.index}
  {
    assert TaskIds(tasks + [t]) == TaskIds(tasks) + [t.index];
  }

  lemma AnswerIdsSnoc<E>(answers: seq<Answer<E>>, a: Answer<E>)
    ensures multiset(AnswerIds(answers + [a])) == multiset(AnswerIds(answers)) + multiset{a.index}
  {
    assert AnswerIds(answers + [a]) == AnswerIds(answers) + [a.index];
  }

  lemma TaskIdsRemove<R>(tasks: seq<Task<R>>, k: nat)
    requires k < |tasks|
    ensures multiset(TaskIds(tasks)) == multiset(TaskIds(Remove(tasks, k))) + multiset{tasks[k].index}
    ensures forall t | t in Remove(tasks, k) :: t in tasks
  {
    var ids := TaskIds(tasks);
    assert ids == ids[..k] + [ids[k]] + ids[k + 1..];
    assert TaskIds(Remove(tasks, k)) == ids[..k] + ids[k + 1..];
  }

  lemma AnswerIdsTail<E>(answers: seq<Answer<E>>)
    requires answers != []
    ensures multiset(AnswerIds(answers)) == multiset(AnswerIds(answers[1..])) + multiset{answers[0].index}
  {
    assert AnswerIds(answers) == [answers[0].index] + AnswerIds(answers[1..]);
  }

  lemma PutInv<R, E>(workers: nat, encode: Encoder<R, E>, batch: seq<R>, s: Round<R, E>)
    requires RoundInv(workers, encode, batch, s) && Enabled(workers, batch, s, Put)
    ensures RoundInv(workers, encode, batch, Next(workers, encode, batch, s, Put))
  {
    hide TaskIds, AnswerIds, Iota, TasksOk, AnswersOk;
    TaskIdsSnoc(s.inQueue, Task(s.put, batch[s.put]));
    TasksOkSnoc(s.inQueue, Task(s.put, batch[s.put]), batch);
    IotaSnoc(s.put);
  }

  lemma TasksOkSnoc<R>(tasks: seq<Task<R>>, t: Task<R>, batch: seq<R>)
    requires TasksOk(tasks, batch) && 0 <= t.index < |batch| && t.raw == batch[t.index]
    ensures TasksOk(tasks + [t], batch)
  {
  }

  lemma AnswersOkSnoc<R, E>(encode: Encoder<R, E>, answers: seq<Answer<E>>, a: Answer<E>, batch: seq<R>)
    requires AnswersOk(encode, answers, batch) && 0 <= a.index < |batch| && a.data == encode(batch[a.index])
    ensures AnswersOk(encode, answers + [a], batch)
  {
  }

  lemma IotaSnoc(n: nat)
    ensures multiset(Iota(n + 1)) == multiset(Iota(n)) + multiset{n as int}
  {
    assert Iota(n + 1) == Iota(n) + [n];
  }

  lemma TakeInv<R, E>(workers: nat, encode: Encoder<R, E>, batch: seq<R>, s: Round<R, E>)
    requires RoundInv(workers, encode, batch, s) && Enabled(workers, batch, s, Take)
    ensures RoundInv(workers, encode, batch, Next(workers, encode, batch, s, Take))
  {
    hide TaskIds, AnswerIds, Iota, AnswersOk;
    TaskIdsRemove(s.inQueue, 0);
    TaskIdsSnoc(s.held, s.inQueue[0]);
    assert Remove(s.inQueue, 0) == s.inQueue[1..];
    assert s.inQueue[0] in s.inQueue;
    TasksOkSnoc(s.held, s.inQueue[0], batch);
  }

  lemma GiveInv<R, E>(workers: nat, encode: Encoder<R, E>, batch: seq<R>, s: Round<R, E>, k: nat)
    requires RoundInv(workers, encode, batch, s) && Enabled(workers, batch, s, Give(k))
    ensures RoundInv(workers, encode, batch, Next(workers, encode, batch, s, Give(k)))
  {
    hide TaskIds, AnswerIds, Iota;
    var t := s.held[k];
    TaskIdsRemove(s.held, k);
    AnswerIdsSnoc(s.outQueue, Answer(t.index, encode(t.raw)));
    assert t in s.held;
    AnswersOkSnoc(encode, s.outQueue, Answer(t.index, encode(t.raw)), batch);
    assert |Remove(s.held, k)| == |s.held| - 1;
  }

  lemma GetInv<R, E>(workers: nat, encode: Encoder<R, E>, batch: seq<R>, s: Round<R, E>)
    requires RoundInv(workers, encode, batch, s) && Enabled(workers, batch, s, Get)
    ensures RoundInv(workers, encode, batch, Next(workers, encode, batch, s, Get))
  {
    hide TaskIds, AnswerIds, Iota, TasksOk;
    AnswerIdsTail(s.outQueue);
    AnswerIdsSnoc(s.received, s.outQueue[0]);
    assert s.outQueue[0] in s.outQueue;
    AnswersOkSnoc(encode, s.received, s.outQueue[0], batch);
  }

  lemma NextInv<R, E>(workers: nat, encode: Encoder<R, E>, batch: seq<R>, s: Round<R, E>, step: Step)
    requires RoundInv(workers, encode, batch, s) && Enabled(workers, batch, s, step)
    ensures RoundInv(workers, encode, batch, Next(workers, encode, batch, s, step))
  {
    hide RoundInv, Next, Enabled;
    match step
    case Put => PutInv(workers, encode, batch, s);
    case Take => TakeInv(workers, encode, batch, s);
    case Give(k) => GiveInv(workers, encode, batch, s, k);
    case Get => GetInv(workers, encode, batch, s);
  }

  lemma {:induction false} ReachesInv<R, E>(workers: nat, encode: Encoder<R, E>, batch: seq<R>, s: Round<R, E>,
        steps: seq<Step>, t: Round<R, E>)
    requires RoundInv(workers, encode, batch, s) && Reaches(workers, encode, batch, s, steps, t)
    ensures RoundInv(workers, encode, batch, t)
    decreases |steps|
  {
    hide RoundInv, Next, Enabled;
    if steps != [] {
      NextInv(workers, encode, batch, s, steps[0]);
      ReachesInv(workers, encode, batch, Next(workers, encode, batch, s, steps[0]), steps[1..], t);
    }
  }

  /** The answers to a batch, each index once, in some order. */
  ghost predicate Answers<R, E>(encode: Encoder<R, E>, batch: seq<R>, answers: seq<Answer<E>>) {
    && |answers| == |batch| && AnswersOk(encode, answers, batch)
    && forall i | 0 <= i < |batch| :: i in AnswerIds(answers)
  }

  lemma NewRoundInv<R, E>(workers: nat, encode: Encoder<R, E>, batch: seq<R>)
    ensures RoundInv(workers, encode, batch, NoRound())
  {
  }

  /** What the invariant says of a round whose answers have all been fetched. */
  lemma FetchedAll<R, E>(workers: nat, encode: Encoder<R, E>, batch: seq<R>, t: Round<R, E>)
    requires RoundInv(workers, encode, batch, t) && |t.received| == |batch|
    ensures t.inQueue == [] && t.held == [] && t.outQueue == [] && t.put == |batch|
    ensures Answers(encode, batch, t.received)
  {
    forall i | 0 <= i < |batch|
      ensures i in AnswerIds(t.received)
    {
      assert Iota(|batch|)[i] == i;
      assert i in multiset(Iota(|batch|));
      assert TaskIds(t.inQueue) == [] && TaskIds(t.held) == [] && AnswerIds(t.outQueue) == [];
      assert i in multiset(AnswerIds(t.received));
    }
  }

  /** When the main process has fetched as many results as it put samples, both queues are empty
      and no worker holds one, whatever the order of completion; so the next round's indices cannot
      meet this round's. And it has every answer once. */
  lemma RoundEndsEmpty<R, E>(workers: nat, encode: Encoder<R, E>, batch: seq<R>, steps: seq<Step>, t: Round<R, E>)
    requires Reaches(workers, encode, batch, NoRound(), steps, t) && |t.received| == |batch|
    ensures t.inQueue == [] && t.held == [] && t.outQueue == [] && t.put == |batch|
    ensures Answers(encode, batch, t.received)
  {
    NewRoundInv(workers, encode, batch);
    ReachesInv(workers, encode, batch, NoRound(), steps, t);
    hide Reaches, RoundInv;
    FetchedAll(workers, encode, batch, t);
  }

  function Left<R, E>(batch: seq<R>, s: Round<R, E>): int {
    4 * (|batch| - s.put) + 3 * |s.inQueue| + 2 * |s.held| + |s.outQueue|
  }

  /** With a worker alive a round never blocks before its end, and every step is progress. */
  lemma RoundNeverStuck<R, E>(workers: nat, encode: Encoder<R, E>, batch: seq<R>, s: Round<R, E>)
    requires workers > 0 && RoundInv(workers, encode, batch, s)
    ensures |s.received| < |batch| ==> exists step :: Enabled(workers, batch, s, step)
    ensures forall step | Enabled(workers, batch, s, step) ::
              0 <= Left(batch, Next(workers, encode, batch, s, step)) < Left(batch, s)
  {
    if |s.received| < |batch| {
      assert Enabled(workers, batch, s, Put) || Enabled(workers, batch, s, Take)
        || Enabled(workers, batch, s, Give(0)) || Enabled(workers, batch, s, Get);
    }
    forall step | Enabled(workers, batch, s, step)
      ensures 0 <= Left(batch, Next(workers, encode, batch, s, step)) < Left(batch, s)
    {
      NextInv(workers, encode, batch, s, step);
    }
  }

  // ----- the whole stream

  /** The encoded samples of a list of raw ones, failures left out, in order. */
  function Encoded<R, E>(encode: Encoder<R, E>, raws: seq<R>): seq<Sample<E>> {
    if raws == [] then []
    else Encoded(encode, raws[..|raws| - 1]) +
         (var d := encode(raws[|raws| - 1]); if d.Some? then [d.value] else [])
  }

  type Packer<!E> = seq<Sample<E>> -> seq<seq<Sample<E>>>

  /** The bins emitted from a stream, with a bin carried over. */
  function Emitted<R, E>(pack: Packer<E>, interval: nat, encode: Encoder<R, E>, stream: seq<R>,
        carry: seq<Sample<E>>): seq<seq<Sample<E>>>
    requires interval > 0
    decreases |stream|
  {
    var n := Min(interval, |stream|);
    var isFinished := n != interval;
    var (bins, rest) := CalculateMatchedGroup(pack, carry + Encoded(encode, stream[..n]), isFinished);
    if isFinished then bins else bins + Emitted(pack, interval, encode, stream[n..], rest)
  }

  lemma {:induction false} EncodedConcat<R, E>(encode: Encoder<R, E>, a: seq<R>, b: seq<R>)
    ensures Encoded(encode, a + b) == Encoded(encode, a) + Encoded(encode, b)
  {
    if b == [] {
      assert a + b == a;
    } else {
      assert (a + b)[..|a + b| - 1] == a + b[..|b| - 1];
      EncodedConcat(encode, a, b[..|b| - 1]);
    }
  }

  ghost predicate Holds<E>(bins: seq<seq<Sample<E>>>, volume: nat, all: multiset<Sample<E>>) {
    multiset(Flatten(bins)) == all && forall b | b in bins :: BinOk(b, volume)
  }

  lemma HoldsConcat<E>(a: seq<seq<Sample<E>>>, b: seq<seq<Sample<E>>>, volume: nat, m: multiset<Sample<E>>,
        n: multiset<Sample<E>>)
    requires Holds(a, volume, m) && Holds(b, volume, n)
    ensures Holds(a + b, volume, m + n)
  {
    FlattenConcat(a, b);
  }

  /** One round of the stream, and what is left after it. */
  lemma RoundOfStream<R, E(!new)>(pack: Packer<E>, volume: nat, interval: nat, encode: Encoder<R, E>, stream: seq<R>,
        carry: seq<Sample<E>>)
    requires interval > 0 && IsPacker(pack, volume)
    ensures var n := Min(interval, |stream|);
            var r := CalculateMatchedGroup(pack, carry + Encoded(encode, stream[..n]), n != interval);
            && Holds(r.0, volume, multiset(Flatten(r.0)))
            && multiset(Flatten(r.0)) + (multiset(r.1) + multiset(Encoded(encode, stream[n..])))
               == multiset(carry) + multiset(Encoded(encode, stream))
            && (n != interval ==> r.1 == [] && stream[n..] == [])
  {
    hide CalculateMatchedGroup, Flatten, BinOk, IsPacker, Encoded;
    var n := Min(interval, |stream|);
    var now, later := Encoded(encode, stream[..n]), Encoded(encode, stream[n..]);
    var r := CalculateMatchedGroup(pack, carry + now, n != interval);
    MatchedGroupConserves(pack, volume, carry + now, n != interval);
    assert stream == stream[..n] + stream[n..];
    EncodedConcat(encode, stream[..n], stream[n..]);
    assert multiset(now + later) == multiset(now) + multiset(later);
    assert multiset(carry + now) == multiset(carry) + multiset(now);
    Regroup(multiset(Flatten(r.0)), multiset(r.1), multiset(carry), multiset(now), multiset(later));
  }

  lemma EmittedUnfolds<R, E>(pack: Packer<E>, interval: nat, encode: Encoder<R, E>, stream: seq<R>,
        carry: seq<Sample<E>>)
    requires interval > 0
    ensures var n := Min(interval, |stream|);
            var r := CalculateMatchedGroup(pack, carry + Encoded(encode, stream[..n]), n != interval);
            Emitted(pack, interval, encode, stream, carry) ==
            if n != interval then r.0 else r.0 + Emitted(pack, interval, encode, stream[n..], r.1)
    ensures Encoded(encode, []) == []
  {
  }

  /** Over a whole run the bins hold every sample that was encoded, once, and nothing else; also
      when the length of the stream is a multiple of the interval, and a last empty round flushes. */
  lemma {:induction false} StreamConserves<R, E(!new)>(pack: Packer<E>, volume: nat, interval: nat,
        encode: Encoder<R, E>, stream: seq<R>, carry: seq<Sample<E>>)
    requires interval > 0 && IsPacker(pack, volume)
    ensures Holds(Emitted(pack, interval, encode, stream, carry), volume,
                  multiset(carry) + multiset(Encoded(encode, stream)))
    decreases |stream|
  {
    hide Emitted, CalculateMatchedGroup, Encoded, IsPacker, Flatten, Holds;
    var n := Min(interval, |stream|);
    var r := CalculateMatchedGroup(pack, carry + Encoded(encode, stream[..n]), n != interval);
    RoundOfStream(pack, volume, interval, encode, stream, carry);
    EmittedUnfolds(pack, interval, encode, stream, carry);
    if n != interval {
      assert multiset(Encoded(encode, stream[n..])) == multiset{};
      assert multiset(r.1) == multiset{};
      assert multiset(Flatten(r.0)) == multiset(carry) + multiset(Encoded(encode, stream));
    } else {
      StreamConserves(pack, volume, interval, encode, stream[n..], r.1);
      HoldsConcat(r.0, Emitted(pack, interval, encode, stream[n..], r.1), volume,
                  multiset(Flatten(r.0)), multiset(r.1) + multiset(Encoded(encode, stream[n..])));
    }
  }

  // ----- the main process

  /** The places of a round after these answers; one without data leaves its place empty. */
  function Placed<E>(n: nat, answers: seq<Answer<E>>): (r: seq<Option<Sample<E>>>)
    ensures |r| == n
  {
    if answers == [] then seq(n, i => None) else
    var r, a := Placed(n, answers[..|answers| - 1]), answers[|answers| - 1];
    if a.data.Some? && 0 <= a.index < n then r[a.index := a.data] else r
  }

  function Kept<E>(places: seq<Option<Sample<E>>>): seq<Sample<E>> {
    if places == [] then []
    else Kept(places[..|places| - 1]) +
         (var d := places[|places| - 1]; if d.Some? then [d.value] else [])
  }

  lemma {:induction false} PlacedAt<R, E>(encode: Encoder<R, E>, batch: seq<R>, answers: seq<Answer<E>>, i: nat)
    requires AnswersOk(encode, answers, batch) && i < |batch|
    ensures var r := Placed(|batch|, answers);
      (r[i] == None || r[i] == encode(batch[i])) && (i in AnswerIds(answers) ==> r[i] == encode(batch[i]))
  {
    if answers != [] {
      var n := |answers| - 1;
      assert answers[n] in answers;
      PlacedAt(encode, batch, answers[..n], i);
      assert AnswerIds(answers) == AnswerIds(answers[..n]) + [answers[n].index];
    }
  }

  lemma {:induction false} KeptEncoded<R, E>(encode: Encoder<R, E>, batch: seq<R>, places: seq<Option<Sample<E>>>)
    requires |places| == |batch| && forall i | 0 <= i < |batch| :: places[i] == encode(batch[i])
    ensures Kept(places) == Encoded(encode, batch)
  {
    if batch != [] {
      KeptEncoded(encode, batch[..|batch| - 1], places[..|places| - 1]);
    }
  }

  /** Results go back to their places whatever the order they come in. */
  lemma PlacedEncoded<R, E>(encode: Encoder<R, E>, batch: seq<R>, answers: seq<Answer<E>>)
    requires Answers(encode, batch, answers)
    ensures Kept(Placed(|batch|, answers)) == Encoded(encode, batch)
  {
    hide Placed, Kept, Encoded, AnswerIds;
    forall i | 0 <= i < |batch|
      ensures Placed(|batch|, answers)[i] == encode(batch[i])
    {
      PlacedAt(encode, batch, answers, i);
    }
    KeptEncoded(encode, batch, Placed(|batch|, answers));
  }

  class IterablePackingDataset<R, E> {
    const pack: Packer<E>
    const interval: nat
    const encode: Encoder<R, E>

    constructor (pack: Packer<E>, interval: nat, encode: Encoder<R, E>)
      ensures this.pack == pack && this.interval == interval && this.encode == encode
    {
      this.pack, this.interval, this.encode := pack, interval, encode;
    }

    /** Fills the places, and keeps those that are filled, in order. */
    method FetchDataOutQueue(lastRes: seq<Sample<E>>, ghost batch: seq<R>, numSamples: nat, answers: seq<Answer<E>>)
      returns (data: seq<Sample<E>>)
      requires numSamples == |batch| && Answers(encode, batch, answers)
      ensures data == lastRes + Kept(Placed(numSamples, answers)) == lastRes + Encoded(encode, batch)
    {
      hide Encoded, AnswerIds;
      var res: seq<Option<Sample<E>>> := seq(numSamples, i => None);
      for k := 0 to numSamples
        invariant |res| == numSamples && res == Placed(numSamples, answers[..k])
      {
        var a := answers[k];
        assert a in answers;
        assert answers[..k + 1][..k] == answers[..k];
        if a.data.Some? {
          res := res[a.index := a.data];
        }
      }
      assert answers[..numSamples] == answers;
      var kept: seq<Sample<E>> := [];
      for i := 0 to numSamples
        invariant kept == Kept(res[..i])
      {
        assert res[..i + 1][..i] == res[..i];
        if res[i].Some? {
          kept := kept + [res[i].value];
        }
      }
      assert res[..numSamples] == res;
      PlacedEncoded(encode, batch, answers);
      data := lastRes + kept;
    }

    /** The whole iteration: `rounds` are the orders in which each round's results come back. */
    method Iterate(stream: seq<R>, rounds: seq<seq<Answer<E>>>) returns (emitted: seq<seq<Sample<E>>>)
      requires interval > 0 && Rounds(encode, interval, stream, rounds)
      ensures emitted == Emitted(pack, interval, encode, stream, [])
    {
      hide Emitted, Answers, Encoded, CalculateMatchedGroup;
      emitted := [];
      if stream == [] {
        NothingEmitted(pack, interval, encode);
        return;
      }
      var data: seq<Sample<E>> := [];
      var rest, left := stream, rounds;
      while true
        invariant Rounds(encode, interval, rest, left)
        invariant emitted + Emitted(pack, interval, encode, rest, data) == Emitted(pack, interval, encode, stream, [])
        decreases |rest|
      {
        var numSamples := Min(interval, |rest|);
        var finished := numSamples != interval;
        EmittedUnfolds(pack, interval, encode, rest, data);
        data := FetchDataOutQueue(data, rest[..numSamples], numSamples, left[0]);
        var (sequences, carry) := CalculateMatchedGroup(pack, data, finished);
        ghost var before := emitted;
        emitted := emitted + sequences;
        data := carry;
        if finished {
          break;
        }
        rest, left := rest[numSamples..], left[1..];
        assert before + (sequences + Emitted(pack, interval, encode, rest, data)) ==
               emitted + Emitted(pack, interval, encode, rest, data);
      }
    }
  }

  /** One order of the results for each round of a stream. */
  ghost predicate Rounds<R, E>(encode: Encoder<R, E>, interval: nat, stream: seq<R>, rounds: seq<seq<Answer<E>>>)
    requires interval > 0
    decreases |stream|
  {
    var n := Min(interval, |stream|);
    && rounds != [] && Answers(encode, stream[..n], rounds[0])
    && (n == interval ==> Rounds(encode, interval, stream[n..], rounds[1..]))
  }

  lemma NothingEmitted<R, E>(pack: Packer<E>, interval: nat, encode: Encoder<R, E>)
    requires interval > 0
    ensures Emitted(pack, interval, encode, [], []) == []
  {
    var none: seq<R> := [];
    assert none[..0] == [];
    assert Encoded(encode, none[..0]) == [];
    var carry: seq<Sample<E>> := [];
    assert carry + Encoded(encode, none[..0]) == [];
  }
}
