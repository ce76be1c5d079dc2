/** The application event queue (components/app/app.c:40): a FIFO of
    capacity 10 fed by the button task and the setup-timer callback and
    drained by the application task. A send that finds the queue full is
    dropped, which is what `xQueueSend` does once its timeout runs out. */
module Dispatcher {
  import opened AppTypes
  import opened Optional

  /** xQueueCreate(10, ...) */
  const AppQueueLength: nat := 10

  class EventQueue {
    var items: seq<AppEvent>

    ghost predicate Valid()
      reads this
    {
      |items| <= AppQueueLength
    }

    constructor ()
      ensures Valid() && items == []
    {
      items := [];
    }

    /** xQueueSend: append at the tail, or drop the event when full. */
    method Send(e: AppEvent) returns (queued: bool)
      requires Valid()
      modifies this
      ensures Valid()
      ensures queued <==> |old(items)| < AppQueueLength
      ensures items == if queued then old(items) + [e] else old(items)
    {
      queued := |items| < AppQueueLength;
      if queued {
        items := items + [e];
      }
    }

    /** xQueueReceive: take the oldest event; `None` where the task would
        block on an empty queue. */
    method Receive() returns (e: Option<AppEvent>)
      requires Valid()
      modifies this
      ensures Valid()
      ensures old(items) == [] ==> e == None && items == []
      ensures old(items) != [] ==> e == Some(old(items)[0]) && items == old(items)[1..]
    {
      if items == [] {
        e := None;
      } else {
        e := Some(items[0]);
        items := items[1..];
      }
    }
  }
}
