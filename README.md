# Song queue model

A Dafny model of the song queue of SpotifyconCola: the class `Queue` in
`queue.js`, a first-in-first-out container of pending songs. It keeps one
ordered field, `items`. `enqueue` appends at the tail (`push`). `dequeue`
removes and answers the head (`shift`), answering `undefined` when the queue
is empty. `showQueue` answers the contents. `isEmpty` tests the length.

Files:

- `wrappers.dfy`: `Option<T>`. `None` stands for JavaScript's `undefined`, the "no value" answer.
- `queue.dfy` (module `SongQueue`): the class `Queue<T>` with a `seq<T>` field `items`, updated in place by its methods. Songs are opaque, so their type is the parameter `T`. It also holds `Dequeued`, which states what `Array.prototype.shift` does to a sequence.
- `traces.dfy` (module `QueueTraces`): any sequence of `enqueue`/`dequeue` calls as a list of `Op`s. `Run` gives the final contents of the queue and the answers of the dequeues. `Replay` performs such a sequence on a `Queue` object and is proved to end in the contents and answers `Run` gives (with `RunSplit` as the step), so the lemmas about `Run` (FIFO order, conservation, length accounting, exact emptiness) hold for every sequence of calls on one queue object. `FifoExample` is a client of the class that shows the same facts through the methods themselves.

## Model

| member | source | states |
|---|---|---|
| SongQueue.Queue.constructor | queue.js:11-13 | a new queue holds no songs |
| SongQueue.Queue.Enqueue | queue.js:19-21 | the new contents are the old contents followed by the song; length grows by one; every earlier song keeps its position |
| SongQueue.Queue.Dequeue | queue.js:27-29 | on a non-empty queue it answers the old head and leaves the old contents minus their head; on an empty queue it answers no value and the queue stays empty, with no failure |
| SongQueue.Queue.ShowQueue | queue.js:35-37 | answers the current contents in insertion order and changes nothing |
| SongQueue.Queue.IsEmpty | queue.js:43-45 | true exactly when the contents have length 0; changes nothing |
| SongQueue.Dequeued | queue.js:27-29 | `shift` on a sequence: a value is answered exactly when the sequence is non-empty, and then that value followed by the rest is the sequence; an absent answer leaves the empty sequence; the length drops by one, or stays 0 |
| SongQueue.EnqueueKeepsHead | queue.js:19-29 | after an enqueue, the next dequeue answers the old head, or the new song if the queue was empty, and the new song stays behind the waiting ones |
| QueueTraces.FifoConservation | queue.js:19-29 | for every sequence of calls, the songs handed out followed by the songs still queued equal the starting songs followed by the enqueued songs, in order |
| QueueTraces.Run | queue.js:19-29 | contents and answers after a call sequence, each step being `items + [x]` or `Dequeued(items)`; every dequeue call, and only a dequeue call, gives exactly one answer, present or absent |
| QueueTraces.RunSplit | queue.js:19-29 | running calls and then one more call is the same as running them and then applying that call's single step to the contents and answers |
| QueueTraces.Replay | queue.js:19-29 | performing a call sequence on a queue object with its `Enqueue` and `Dequeue` methods leaves exactly the contents, and gives exactly the answers, that `Run` gives |
| QueueTraces.LengthAccounting | queue.js:19-29 | final length = starting length + enqueued songs - songs handed out; no more songs are handed out than there are dequeue calls |
| QueueTraces.EmptyExactlyWhenAllServed | queue.js:11-45 | a queue that starts empty ends empty exactly when the songs handed out are all the songs enqueued |
| QueueTraces.RunAfterEnqueues | queue.js:19-21 | enqueueing songs one by one appends all of them, in order |
| QueueTraces.RunDequeuesAll | queue.js:27-29 | as many dequeues as there are queued songs answer them all, head first, and leave the queue empty |
| QueueTraces.DequeuesOnEmpty | queue.js:27-29 | any number of dequeues on an empty queue all answer no value, and the queue stays empty |
| QueueTraces.RunDequeuesThenMore | queue.js:27-29 | dequeuing past the end answers every queued song in order, then no value for each extra call |
| QueueTraces.FifoOrder | queue.js:19-29 | enqueueing s1..sn onto an empty queue and then dequeuing n times answers s1..sn in order and empties the queue; further dequeues answer no value |
| QueueTraces.FifoExample | queue.js:11-45 | through the class: enqueue A, enqueue B, then three dequeues answer A, B and no value, and the queue is empty at the end |

## Left out

- `public/script.js` as a whole: DOM rendering, `fetch` calls to the backend and the Spotify Web API, the Spotify Web Playback SDK, `async` error handling, URL parsing and a floating-point volume. None of it is a self-contained algorithm; it depends on the browser and external services.
- SongQueue.Queue.ShowQueue: answers the value of the contents. The source answers the live internal array, so a caller could change the queue through it. That aliasing is not modelled.
- SongQueue.Queue.Dequeue: `undefined` is modelled as `None`, distinct from every song. In the source, a queue that holds an `undefined` element answers `undefined` for it too, so a caller cannot tell that apart from an empty queue.
- The `export default` module line (queue.js:49) has no counterpart.
