/** The per-actor mailbox: an unbounded FIFO channel that can be closed.
    It models the `Channel<T>(capacity = Channel.UNLIMITED)` that every spawned
    actor receives; the only operations the actor runtime uses are send (from
    `tell`), receive (from the run loop) and close (on Stop). */
module Mailboxes {

  datatype Option<T> = None | Some(value: T)

  /** What a send reports: the message was appended, or the channel was
      already closed (the source throws a closed-send exception there). */
  datatype SendResult = Enqueued | MailboxClosed

  class Mailbox<T> {
    /** Pending messages, oldest first. */
    var queue: seq<T>
    /** Set once by close; never reset. */
    var closed: bool

    /** A fresh, empty, open channel of unlimited capacity. */
    constructor ()
      ensures queue == [] && !closed
    {
      queue := [];
      closed := false;
    }

    /** Appends `m` at the tail unless the channel is closed; an unlimited
        channel never makes the sender wait. */
    method Send(m: T) returns (r: SendResult)
      modifies this
      ensures closed == old(closed)
      ensures r == if old(closed) then MailboxClosed else Enqueued
      ensures queue == if old(closed) then old(queue) else old(queue) + [m]
    {
      if closed {
        r := MailboxClosed;
      } else {
        queue := queue + [m];
        r := Enqueued;
      }
    }

    /** Removes the head of the queue. On an open mailbox, `None` stands for
        the point where the receiving coroutine would suspend because nothing
        is pending. On a closed, empty mailbox Kotlin's `receive()` throws
        `ClosedReceiveChannelException` instead; the run loop never reaches
        that case, because the mailbox stays open until Stop ends the loop. */
    method TryReceive() returns (m: Option<T>)
      modifies this
      ensures closed == old(closed)
      ensures |old(queue)| == 0 ==> m == None && queue == old(queue)
      ensures |old(queue)| > 0 ==> m == Some(old(queue)[0]) && queue == old(queue)[1..]
    {
      if |queue| == 0 {
        m := None;
      } else {
        m := Some(queue[0]);
        queue := queue[1..];
      }
    }

    /** Closes the channel to further sends; buffered messages stay where they are. */
    method Close()
      modifies this
      ensures closed && queue == old(queue)
    {
      closed := true;
    }
  }
}
