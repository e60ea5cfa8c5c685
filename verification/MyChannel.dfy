/** The queue between a node's apply loop and the server's receive loop. */
module Channels {

  class MyChannel {
    var que: seq<string>

    constructor ()
      ensures que == []
    {
      que := [];
    }

    method PushData(s: string)
      modifies this
      ensures que == old(que) + [s]
    {
      que := que + [s];
    }

    /** The condition variable lets the caller through only once the queue is non-empty. */
    method PopData() returns (s: string)
      requires que != []
      modifies this
      ensures [s] + que == old(que)
    {
      s := que[0];
      que := que[1..];
    }
  }
}
