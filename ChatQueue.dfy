/**
 * A bounded first-in-first-out queue of session ids. The source builds every
 * queue over a bounded channel in DropWrite mode, whose TryWrite reports
 * success even when the queue is full and the id is discarded. The full mode
 * is kept as a field so that a caller written against the queue interface is
 * verified for a queue that can refuse a write (Wait mode) as well.
 */
module Queues {
  import opened Models

  /** The two behaviours of a bounded channel's write when it is full. */
  datatype FullMode = Wait | DropWrite

  class ChatQueue {
    const capacity: nat
    const fullMode: FullMode
    var items: seq<ChatId>

    ghost predicate Valid()
      reads this
    {
      |items| <= capacity
    }

    /** A bounded channel needs a capacity of at least one. */
    constructor (capacity: nat)
      requires capacity >= 1
      ensures Valid()
      ensures this.capacity == capacity && fullMode == DropWrite && items == []
    {
      this.capacity := capacity;
      fullMode := DropWrite;
      items := [];
    }

    /**
     * Appends `chatId` when there is room. When full, a DropWrite queue drops
     * the id and still reports success; a Wait queue reports failure.
     */
    method TryEnqueue(chatId: ChatId) returns (ok: bool)
      requires Valid()
      modifies this
      ensures Valid()
      ensures ok <==> old(|items|) < capacity || fullMode == DropWrite
      ensures old(|items|) < capacity ==> items == old(items) + [chatId]
      ensures old(|items|) >= capacity ==> items == old(items)
    {
      if |items| < capacity {
        items := items + [chatId];
        ok := true;
      } else {
        ok := fullMode == DropWrite;
      }
    }

    /** Takes the oldest id; an empty queue yields None (the asynchronous wait is not modelled). */
    method TryDequeue() returns (r: Option<ChatId>)
      requires Valid()
      modifies this
      ensures Valid()
      ensures old(items) == [] ==> r == None && items == []
      ensures old(items) != [] ==> r == Some(old(items)[0]) && items == old(items)[1..]
    {
      if items == [] {
        r := None;
      } else {
        r := Some(items[0]);
        items := items[1..];
      }
    }
  }

  /** A client: two ids enqueued on an empty queue come out oldest first. */
  method FifoOrder(q: ChatQueue, x: ChatId, y: ChatId) returns (first: Option<ChatId>, second: Option<ChatId>)
    requires q.Valid() && q.items == [] && q.capacity >= 2
    modifies q
    ensures first == Some(x) && second == Some(y) && q.items == []
  {
    var ok1 := q.TryEnqueue(x);
    var ok2 := q.TryEnqueue(y);
    first := q.TryDequeue();
    second := q.TryDequeue();
  }

  /** On a full DropWrite queue the write is reported as done although the id is dropped. */
  method DropWriteLosesSilently(q: ChatQueue, x: ChatId) returns (ok: bool)
    requires q.Valid() && q.fullMode == DropWrite && |q.items| == q.capacity
    modifies q
    ensures ok && q.items == old(q.items)
  {
    ok := q.TryEnqueue(x);
  }
}
