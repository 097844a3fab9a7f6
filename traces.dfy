/**
 * Sequences of calls on a song queue. One `Op` is one call of `Enqueue` or
 * `Dequeue`; `Run` gives the queue's contents after the calls and the answers
 * of the `Dequeue` calls, in order. `Replay` performs the calls on a
 * `SongQueue.Queue` object and is proved to end in the state and answers
 * `Run` gives, so the lemmas about `Run` hold for the object too.
 */
module QueueTraces {
  import opened Wrappers
  import opened SongQueue

  datatype Op<T> = Enq(song: T) | Deq

  /** The contents after a run of calls and the answers of its dequeues. */
  datatype Trace<T> = Trace(contents: seq<T>, answers: seq<Option<T>>)

  /**
   * Starting from `items`, the contents after the calls `ops` and the answers
   * of their dequeues: an enqueue step is `items + [x]`, a dequeue step is
   * `Dequeued(items)`. Every dequeue call, and only a dequeue call, answers.
   */
  function Run<T>(items: seq<T>, ops: seq<Op<T>>): (r: Trace<T>)
    ensures |r.answers| == DequeueCount(ops)
    decreases |ops|
  {
    if ops == [] then Trace(items, [])
    else match ops[0]
      case Enq(x) => Run(items + [x], ops[1..])
      case Deq =>
        var d := Dequeued(items);
        var t := Run(d.1, ops[1..]);
        Trace(t.contents, [d.0] + t.answers)
  }

  /** The songs the calls enqueue, in call order. */
  function Songs<T>(ops: seq<Op<T>>): seq<T>
  {
    if ops == [] then []
    else (if ops[0].Enq? then [ops[0].song] else []) + Songs(ops[1..])
  }

  /** The number of dequeue calls. */
  function DequeueCount<T>(ops: seq<Op<T>>): nat
  {
    if ops == [] then 0 else (if ops[0].Deq? then 1 else 0) + DequeueCount(ops[1..])
  }

  /** The values among the answers, dropping every "no value". */
  function Values<T>(answers: seq<Option<T>>): seq<T>
  {
    if answers == [] then []
    else (if answers[0].Some? then [answers[0].value] else []) + Values(answers[1..])
  }

  /** One `Enqueue` call per song, in order. */
  function Enqueues<T>(songs: seq<T>): seq<Op<T>>
  {
    if songs == [] then [] else [Enq(songs[0])] + Enqueues(songs[1..])
  }

  /** `n` `Dequeue` calls. */
  function Dequeues<T>(n: nat): seq<Op<T>>
  {
    if n == 0 then [] else [Deq] + Dequeues(n - 1)
  }

  /** Each song wrapped as a present answer. */
  function Somes<T>(songs: seq<T>): seq<Option<T>>
  {
    if songs == [] then [] else [Some(songs[0])] + Somes(songs[1..])
  }

  /** `n` answers of "no value". */
  function Nones<T>(n: nat): seq<Option<T>>
  {
    if n == 0 then [] else [None] + Nones(n - 1)
  }

  /** `Values` of an answer list whose first answer is `answer`. */
  lemma ValuesCons<T>(answer: Option<T>, answers: seq<Option<T>>)
    ensures Values([answer] + answers) == (if answer.Some? then [answer.value] else []) + Values(answers)
  {
  }

  /** The enqueue step of `FifoConservation`. */
  lemma ConservationEnqStep<T>(items: seq<T>, x: T, tail: seq<Op<T>>, handed: seq<T>, left: seq<T>)
    requires handed + left == items + [x] + Songs(tail)
    ensures handed + left == items + Songs([Enq(x)] + tail)
  {
  }

  /** The dequeue step of `FifoConservation`. */
  lemma ConservationDeqStep<T>(items: seq<T>, tail: seq<Op<T>>, handed: seq<T>, left: seq<T>)
    requires handed + left == Dequeued(items).1 + Songs(tail)
    ensures Values([Dequeued(items).0]) + handed + left == items + Songs([Deq] + tail)
  {
    assert ([Deq] + tail)[1..] == tail;
    assert Songs([Deq] + tail) == Songs(tail);
    ValuesCons(Dequeued(items).0, []);
    if items != [] {
      assert Values([Dequeued(items).0]) == [items[0]];
      assert [items[0]] + handed + left == [items[0]] + (handed + left);
      assert [items[0]] + items[1..] == items;
    }
  }

  /**
   * FIFO conservation: the songs handed out, followed by the songs still
   * queued, are exactly the songs that were queued at the start followed by
   * the songs enqueued, in the same order. Nothing is lost, duplicated,
   * invented or reordered.
   */
  lemma {:induction false} FifoConservation<T>(items: seq<T>, ops: seq<Op<T>>)
    ensures Values(Run(items, ops).answers) + Run(items, ops).contents == items + Songs(ops)
    decreases |ops|
  {
    if ops != [] {
      var tail := ops[1..];
      assert ops == [ops[0]] + tail;
      match ops[0]
      case Enq(x) =>
        FifoConservation(items + [x], tail);
        var t := Run(items + [x], tail);
        ConservationEnqStep(items, x, tail, Values(t.answers), t.contents);
      case Deq =>
        var d := Dequeued(items);
        FifoConservation(d.1, tail);
        var t := Run(d.1, tail);
        ConservationDeqStep(items, tail, Values(t.answers), t.contents);
        ValuesCons(d.0, t.answers);
        ValuesCons(d.0, []);
        assert Values([d.0] + t.answers) == Values([d.0]) + Values(t.answers);
    }
  }

  /** Dropping the absent answers never lengthens the list. */
  lemma {:induction false} ValuesAtMostAnswers<T>(answers: seq<Option<T>>)
    ensures |Values(answers)| <= |answers|
  {
    if answers != [] {
      ValuesAtMostAnswers(answers[1..]);
    }
  }

  /**
   * Length accounting: the final length is the starting length plus the
   * enqueued songs minus the songs handed out, and no more songs are handed
   * out than there were dequeue calls.
   */
  lemma LengthAccounting<T>(items: seq<T>, ops: seq<Op<T>>)
    ensures |Run(items, ops).contents| == |items| + |Songs(ops)| - |Values(Run(items, ops).answers)|
    ensures |Values(Run(items, ops).answers)| <= DequeueCount(ops)
  {
    FifoConservation(items, ops);
    ValuesAtMostAnswers(Run(items, ops).answers);
  }

  /**
   * Emptiness is exact: a queue that starts empty is empty after a run of
   * calls exactly when every song enqueued has been handed out again.
   */
  lemma EmptyExactlyWhenAllServed<T>(ops: seq<Op<T>>)
    ensures Run([], ops).contents == [] <==> Values(Run([], ops).answers) == Songs(ops)
  {
    FifoConservation([], ops);
    assert [] + Songs(ops) == Songs(ops);
    var t := Run([], ops);
    if Values(t.answers) == Songs(ops) {
      assert |t.contents| == 0;
    }
  }

  /** Enqueueing songs one by one appends them all, in order. */
  lemma {:induction false} RunAfterEnqueues<T>(items: seq<T>, songs: seq<T>, rest: seq<Op<T>>)
    ensures Run(items, Enqueues(songs) + rest) == Run(items + songs, rest)
    decreases |songs|
  {
    if songs == [] {
      assert Enqueues(songs) + rest == rest;
      assert items + songs == items;
    } else {
      var ops := Enqueues(songs) + rest;
      assert ops[0] == Enq(songs[0]);
      assert ops[1..] == Enqueues(songs[1..]) + rest;
      RunAfterEnqueues(items + [songs[0]], songs[1..], rest);
      assert items + [songs[0]] + songs[1..] == items + songs;
    }
  }

  /** As many dequeues as there are songs hand them all out and empty the queue. */
  lemma {:induction false} RunDequeuesAll<T>(items: seq<T>)
    ensures Run(items, Dequeues(|items|)) == Trace([], Somes(items))
    decreases |items|
  {
    if items != [] {
      var ops: seq<Op<T>> := Dequeues(|items|);
      assert ops[0] == Deq && ops[1..] == Dequeues(|items[1..]|);
      RunDequeuesAll(items[1..]);
    }
  }

  /** Dequeues on an empty queue all answer "no value", and it stays empty. */
  lemma {:induction false} DequeuesOnEmpty<T>(n: nat)
    ensures Run([], Dequeues<T>(n)) == Trace([], Nones(n))
  {
    if n > 0 {
      var ops: seq<Op<T>> := Dequeues(n);
      assert ops[0] == Deq && ops[1..] == Dequeues(n - 1);
      DequeuesOnEmpty<T>(n - 1);
    }
  }

  /**
   * FIFO order: enqueueing s1..sn on an empty queue and then dequeuing n
   * times answers s1..sn in that order and leaves the queue empty; any
   * further dequeue answers "no value".
   */
  lemma FifoOrder<T>(songs: seq<T>, extra: nat)
    ensures Run([], Enqueues(songs) + Dequeues(|songs|)) == Trace([], Somes(songs))
    ensures Run([], Enqueues(songs) + Dequeues(|songs| + extra)) == Trace([], Somes(songs) + Nones(extra))
  {
    RunAfterEnqueues([], songs, Dequeues(|songs|));
    assert [] + songs == songs;
    RunDequeuesAll(songs);
    RunAfterEnqueues([], songs, Dequeues(|songs| + extra));
    RunDequeuesThenMore(songs, extra);
  }

  lemma {:induction false} RunDequeuesThenMore<T>(items: seq<T>, extra: nat)
    ensures Run(items, Dequeues(|items| + extra)) == Trace([], Somes(items) + Nones(extra))
    decreases |items|
  {
    if items == [] {
      DequeuesOnEmpty<T>(extra);
      assert Somes(items) + Nones(extra) == Nones(extra);
    } else {
      var ops: seq<Op<T>> := Dequeues(|items| + extra);
      assert ops[0] == Deq && ops[1..] == Dequeues(|items[1..]| + extra);
      RunDequeuesThenMore(items[1..], extra);
      assert Somes(items) + Nones(extra) == [Some(items[0])] + (Somes(items[1..]) + Nones(extra));
    }
  }

  /** One more call after a trace: what that call does to its contents and answers. */
  function Step<T>(t: Trace<T>, op: Op<T>): Trace<T>
  {
    match op
    case Enq(x) => Trace(t.contents + [x], t.answers)
    case Deq => Trace(Dequeued(t.contents).1, t.answers + [Dequeued(t.contents).0])
  }

  /** Running the calls `ops` and then `op` is running `ops` and then the single step `op`. */
  lemma {:induction false} RunSplit<T>(items: seq<T>, ops: seq<Op<T>>, op: Op<T>)
    ensures Run(items, ops + [op]) == Step(Run(items, ops), op)
    decreases |ops|
  {
    if ops == [] {
      assert ops + [op] == [op];
      assert [op][1..] == [];
    } else {
      assert (ops + [op])[0] == ops[0];
      assert (ops + [op])[1..] == ops[1..] + [op];
      match ops[0]
      case Enq(x) => RunSplit(items + [x], ops[1..], op);
      case Deq =>
        RunSplit(Dequeued(items).1, ops[1..], op);
        var t := Run(Dequeued(items).1, ops[1..]);
        if op.Deq? {
          assert [Dequeued(items).0] + (t.answers + [Dequeued(t.contents).0])
              == [Dequeued(items).0] + t.answers + [Dequeued(t.contents).0];
        }
    }
  }

  /**
   * Performs the calls `ops` on the queue object `q`, in order, and collects
   * the answers of its dequeues. The object ends with the contents `Run`
   * gives and the answers are those of `Run`, so every lemma about `Run`
   * holds for the object.
   */
  method Replay<T>(q: Queue<T>, ops: seq<Op<T>>) returns (answers: seq<Option<T>>)
    modifies q
    ensures Run(old(q.items), ops) == Trace(q.items, answers)
  {
    ghost var start := q.items;
    answers := [];
    var i := 0;
    assert ops[..0] == [];
    while i < |ops|
      invariant 0 <= i <= |ops|
      invariant Run(start, ops[..i]) == Trace(q.items, answers)
    {
      assert ops[..i + 1] == ops[..i] + [ops[i]];
      RunSplit(start, ops[..i], ops[i]);
      match ops[i] {
        case Enq(x) =>
          q.Enqueue(x);
        case Deq =>
          var answer := q.Dequeue();
          answers := answers + [answer];
      }
      i := i + 1;
    }
    assert ops[..|ops|] == ops;
  }

  /**
   * A client of the class: enqueue A, enqueue B, then dequeue three times.
   * The answers are A, B and then "no value", and the queue ends empty.
   */
  method FifoExample<T>(a: T, b: T) returns (first: Option<T>, second: Option<T>, third: Option<T>, empty: bool)
    ensures first == Some(a) && second == Some(b) && third == None && empty
  {
    var q := new Queue<T>();
    var initiallyEmpty := q.IsEmpty();
    assert initiallyEmpty;
    q.Enqueue(a);
    q.Enqueue(b);
    first := q.Dequeue();
    second := q.Dequeue();
    third := q.Dequeue();
    empty := q.IsEmpty();
  }
}
