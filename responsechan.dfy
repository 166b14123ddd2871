/** The bounded, closable FIFO of probe responses that the finder's probes
    push into and its consumer loop drains. The buffered channel is the
    sequence `items` (front first) with a fixed `capacity`; closing marks
    the queue closed but keeps what is buffered receivable, as closing a
    Go channel does.

    Operations are taken as atomic: the mutex and the one-millisecond
    polling of `wait` are not modelled, only the state in which `wait`
    lets a sender through. */
module ResponseChans {
  import opened Common

  /** The errors that travel through the finder: the queue's
      "chan is closed", the finder's ErrNotFound, and whatever the
      caller's check function reports for one port. */
  datatype Error = ChanClosed | NotFound | ProbeFailed(reason: string)

  /** One probe's outcome: its error (None for nil), the port probed, and
      the secondary port the check function returned with it. */
  datatype Response = Response(err: Option<Error>, port: int, portOptional: int)

  class ResponseChan {
    /** the responses buffered in the channel, oldest first */
    var items: seq<Response>
    /** cap(c.ch) */
    const capacity: nat
    /** chClosed */
    var chClosed: bool

    ghost predicate Valid()
      reads this
    {
      |items| <= capacity
    }

    /** newResponseChan: an open, empty queue of the given capacity. Go's
        `make` panics on a negative size. */
    constructor (size: int)
      requires size >= 0
      ensures Valid()
      ensures items == [] && capacity == size && !chClosed
    {
      items := [];
      capacity := size;
      chClosed := false;
    }

    /** close: marks the queue closed once; a second call changes nothing.
        Buffered responses stay receivable. */
    method Close()
      requires Valid()
      modifies this
      ensures Valid()
      ensures chClosed && items == old(items)
      ensures old(chClosed) ==> unchanged(this)
    {
      if !chClosed {
        chClosed := true;
      }
    }

    /** isFull: no room is left; a queue of capacity zero is always full. */
    function IsFull(): (full: bool)
      reads this
      requires Valid()
      ensures full <==> |items| == capacity
      ensures capacity == 0 ==> full
    {
      |items| >= capacity
    }

    /** The state in which `wait` stops polling: the queue is closed or
        has room for one more response. */
    function WaitReturns(): (r: bool)
      reads this
      requires Valid()
      ensures r <==> chClosed || |items| < capacity
      ensures !chClosed && capacity == 0 ==> !r
    {
      chClosed || !IsFull()
    }

    /** send: after `wait` has let it through, fails with "chan is closed"
        on a closed queue and otherwise appends the response at the back.
        In the source a queue found full under the lock sends the caller
        back to `wait`; with atomic operations nothing can fill the queue
        between `wait` and the lock, so the precondition is exactly the
        state `wait` returns in. */
    method Send(resp: Response) returns (err: Option<Error>)
      requires Valid()
      requires WaitReturns()
      modifies this
      ensures Valid()
      ensures chClosed == old(chClosed)
      ensures old(chClosed) ==> err == Some(ChanClosed) && items == old(items)
      ensures !old(chClosed) ==> err == None && items == old(items) + [resp]
    {
      if chClosed {
        return Some(ChanClosed);
      }
      items := items + [resp];
      err := None;
    }

    /** rcv: removes and returns the front response. A receive on a
        closed, drained channel yields Go's nil (`None`); on an open, empty
        one it blocks, hence the precondition. */
    method Rcv() returns (resp: Option<Response>)
      requires Valid()
      requires items != [] || chClosed
      modifies this
      ensures Valid()
      ensures chClosed == old(chClosed)
      ensures old(items) != [] ==> resp == Some(old(items)[0]) && items == old(items)[1..]
      ensures old(items) == [] ==> resp == None && items == []
    {
      if items == [] {
        return None;
      }
      resp := Some(items[0]);
      items := items[1..];
    }
  }
}
