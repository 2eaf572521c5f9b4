/** The blocking queue that connects the client's threads: its sequential behaviour as a class. */
module Queues {

  class ThreadSafeQueue<T> {
    var queue: seq<T>

    constructor ()
      ensures queue == []
    {
      queue := [];
    }

    method Push(item: T)
      modifies this
      ensures queue == old(queue) + [item]
    {
      queue := queue + [item];
    }

    /** Returns once the queue is not empty. */
    method Front() returns (item: T)
      requires queue != []
      ensures item == queue[0]
    {
      item := queue[0];
    }

    method Pop()
      requires queue != []
      modifies this
      ensures queue == old(queue)[1..]
    {
      queue := queue[1..];
    }

    method IsEmpty() returns (empty: bool)
      ensures empty <==> queue == []
    {
      empty := |queue| == 0;
    }

    method GetSize() returns (size: int)
      ensures size == |queue|
    {
      size := |queue|;
    }
  }
}
