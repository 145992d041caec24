/** `KuActorRef`: the send-only capability to one actor's mailbox. */
module ActorRefs {
  import opened Mailboxes

  class ActorRef<T> {
    /** The channel this reference enqueues onto; a reference never changes target. */
    const mailbox: Mailbox<T>

    constructor (mailbox: Mailbox<T>)
      ensures this.mailbox == mailbox
    {
      this.mailbox := mailbox;
    }

    /** `tell`: appends `msg` to the tail of the target mailbox and returns at
        once. Only the mailbox may change, so no handler runs here: enqueueing
        and processing are separate steps. A closed mailbox refuses the message
        and keeps its contents. */
    method Tell(msg: T) returns (r: SendResult)
      modifies mailbox
      ensures mailbox.closed == old(mailbox.closed)
      ensures r == if old(mailbox.closed) then MailboxClosed else Enqueued
      ensures mailbox.queue == if old(mailbox.closed) then old(mailbox.queue) else old(mailbox.queue) + [msg]
    {
      r := mailbox.Send(msg);
    }
  }

  /** One caller telling `msgs` to `ref`, one after another, as the main
      actor of the example does. The first refused tell ends the sequence, as
      the exception thrown by a closed channel would. On an open mailbox the
      messages arrive in call order. */
  method TellAll<T>(ref: ActorRef<T>, msgs: seq<T>) returns (r: SendResult)
    modifies ref.mailbox
    ensures ref.mailbox.closed == old(ref.mailbox.closed)
    ensures r == if old(ref.mailbox.closed) && |msgs| > 0 then MailboxClosed else Enqueued
    ensures ref.mailbox.queue == if old(ref.mailbox.closed) then old(ref.mailbox.queue) else old(ref.mailbox.queue) + msgs
  {
    r := Enqueued;
    var i := 0;
    while i < |msgs|
      invariant 0 <= i <= |msgs|
      invariant r == Enqueued
      invariant old(ref.mailbox.closed) ==> i == 0
      invariant ref.mailbox.closed == old(ref.mailbox.closed)
      invariant ref.mailbox.queue == if old(ref.mailbox.closed) then old(ref.mailbox.queue) else old(ref.mailbox.queue) + msgs[..i]
    {
      r := ref.Tell(msgs[i]);
      if r == MailboxClosed {
        return;
      }
      assert msgs[..i + 1] == msgs[..i] + [msgs[i]];
      i := i + 1;
    }
    assert msgs[..i] == msgs;
  }
}
