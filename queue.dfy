/**
 * The song queue: a first-in-first-out container that keeps its songs in one
 * ordered field, `items`. Songs are opaque to the queue, so the element type
 * is a type parameter.
 */
module SongQueue {
  import opened Wrappers

  /**
   * What `Array.prototype.shift` does to a sequence: it answers the head and
   * the rest, or "no value" and the (still empty) sequence when there is no
   * head. Removing from an empty queue is not an error.
   */
  function Dequeued<T>(items: seq<T>): (r: (Option<T>, seq<T>))
    ensures r.0.Some? <==> items != []
    ensures r.0.Some? ==> [r.0.value] + r.1 == items
    ensures r.0.None? ==> r.1 == [] == items
    ensures |r.1| == if items == [] then 0 else |items| - 1
  {
    if items == [] then (None, []) else (Some(items[0]), items[1..])
  }

  /**
   * Enqueueing never disturbs what the next dequeue answers: a song added at
   * the tail comes out first only when the queue was empty, and otherwise it
   * stays behind every song that was already waiting.
   */
  lemma EnqueueKeepsHead<T>(items: seq<T>, song: T)
    ensures Dequeued(items + [song]) ==
      if items == [] then (Some(song), []) else (Some(items[0]), items[1..] + [song])
  {
    if items != [] {
      assert (items + [song])[1..] == items[1..] + [song];
    }
  }

  /** The queue object; `items` is updated in place by its methods. */
  class Queue<T> {
    var items: seq<T>

    /** A new queue holds no songs. */
    constructor ()
      ensures items == []
    {
      items := [];
    }

    /** Appends `song` at the tail; every earlier song keeps its place. */
    method Enqueue(song: T)
      modifies this
      ensures items == old(items) + [song]
      ensures |items| == |old(items)| + 1
      ensures items[..|old(items)|] == old(items) && items[|old(items)|] == song
    {
      items := items + [song];
    }

    /**
     * Removes and answers the head, or answers `None` and leaves the queue
     * empty when there is nothing to remove.
     */
    method Dequeue() returns (song: Option<T>)
      modifies this
      ensures (song, items) == Dequeued(old(items))
      ensures old(items) == [] ==> song == None && items == []
      ensures old(items) != [] ==> song == Some(old(items)[0]) && items == old(items)[1..]
    {
      if items == [] {
        song := None;
      } else {
        song := Some(items[0]);
        items := items[1..];
      }
    }

    /** Answers the current songs, head first; the queue is unchanged. */
    method ShowQueue() returns (songs: seq<T>)
      ensures songs == items
    {
      songs := items;
    }

    /** Answers whether the queue holds no song; the queue is unchanged. */
    method IsEmpty() returns (empty: bool)
      ensures empty <==> items == []
    {
      empty := |items| == 0;
    }
  }
}
