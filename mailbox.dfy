/** The mailbox (raptors/src/mailbox.rs): a FIFO queue of typed messages,
    fed from the receive half of a bounded channel the mailbox creates itself.
    The channel is modelled as the sequence of messages queued in it, oldest
    first; `send` is `try_send` on the mailbox's own sending half. */
module Mailbox {
  import opened Wrappers
  import opened Messages

  /** Capacity of the channel `Mailbox::new()` creates. */
  const ChannelCapacity: nat := 16

  /** The reply `deal` gives for the mail it takes off the queue, one per
      message variant. */
  function Reply(m: TypedMessage): (s: string)
    ensures s == "Received WorkloadMsg" <==> m.WorkloadMsg?
    ensures s == "Received SystemMsg" <==> m.SystemMsg?
    ensures s == "Received ActorMsg" <==> m.ActorMsg?
  {
    match m
    case WorkloadMsg(_) => "Received WorkloadMsg"
    case SystemMsg(_) => "Received SystemMsg"
    case ActorMsg => "Received ActorMsg"
  }

  class Mailbox {
    /** The queued mails, oldest first. */
    var mails: seq<TypedMessage>
    /** The messages waiting in the channel, oldest first. */
    var channel: seq<TypedMessage>

    /** The channel never holds more than its capacity; every method keeps
        this. */
    ghost predicate Valid()
      reads this
    {
      |channel| <= ChannelCapacity
    }

    /** `Mailbox::new()`: no mails, and a fresh, empty channel. */
    constructor ()
      ensures Valid()
      ensures mails == [] && channel == []
      ensures Len() == 0 && IsEmpty()
    {
      mails := [];
      channel := [];
    }

    /** `Len::len()`. */
    function Len(): (n: nat)
      reads this
      ensures n == |mails|
    {
      |mails|
    }

    /** `Len::is_empty()`: holds exactly when the length is zero. */
    function IsEmpty(): (b: bool)
      reads this
      ensures b <==> Len() == 0
    {
      mails == []
    }

    /** `mails()`: a copy of the queue, oldest first, as long as `len()`. */
    function Mails(): (ms: seq<TypedMessage>)
      reads this
      ensures ms == mails
      ensures |ms| == Len()
      ensures ms == [] <==> IsEmpty()
    {
      mails
    }

    /** `send(msg)`: `try_send` on the mailbox's own channel. When the channel
        is full the message is dropped and the error ignored. */
    method Send(msg: TypedMessage)
      requires Valid()
      modifies this
      ensures Valid()
      ensures mails == old(mails)
      ensures channel == if |old(channel)| < ChannelCapacity then old(channel) + [msg] else old(channel)
    {
      if |channel| < ChannelCapacity {
        channel := channel + [msg];
      }
    }

    /** `receive()`: moves the oldest channel message to the back of the
        queue and returns `Ok`, or returns `Err` when the channel is empty. */
    method Receive() returns (r: Result<(), string>)
      requires Valid()
      modifies this
      ensures Valid()
      ensures old(channel) == [] ==> r == Err("Error!") && mails == old(mails) && channel == old(channel)
      ensures old(channel) != [] ==>
        r == Ok(()) && mails == old(mails) + [old(channel)[0]] && channel == old(channel)[1..]
    {
      if channel != [] {
        var msg := channel[0];
        channel := channel[1..];
        r := Enqueue(msg);
      } else {
        r := Err("Error!");
      }
    }

    /** `enqueue(msg)`: appends at the back, always `Ok`. */
    method Enqueue(msg: TypedMessage) returns (r: Result<(), string>)
      requires Valid()
      modifies this
      ensures Valid()
      ensures r == Ok(())
      ensures mails == old(mails) + [msg]
      ensures Len() == old(Len()) + 1
      ensures channel == old(channel)
    {
      mails := mails + [msg];
      r := Ok(());
    }

    /** `dequeue()`: `None` on an empty queue; otherwise removes and returns
        the oldest mail, keeping the rest in order. */
    method Dequeue() returns (m: Option<TypedMessage>)
      requires Valid()
      modifies this
      ensures Valid()
      ensures old(mails) == [] ==> m == None && mails == old(mails)
      ensures old(mails) != [] ==> m == Some(old(mails)[0]) && mails == old(mails)[1..]
      ensures channel == old(channel)
    {
      if mails == [] {
        m := None;
      } else {
        m := Some(mails[0]);
        mails := mails[1..];
      }
    }

    /** `deal()`: dequeues, then replies according to the mail's variant;
        `Err` when there was nothing to dequeue. */
    method Deal() returns (r: Result<string, string>)
      requires Valid()
      modifies this
      ensures Valid()
      ensures old(mails) == [] ==> r == Err("Dequeue an empty mailbox") && mails == old(mails)
      ensures old(mails) != [] ==> r == Ok(Reply(old(mails)[0])) && mails == old(mails)[1..]
      ensures channel == old(channel)
    {
      var deq := Dequeue();
      match deq
      case None =>
        r := Err("Dequeue an empty mailbox");
      case Some(msg) =>
        r := Ok(Reply(msg));
    }
  }

  /** First in, first out: after enqueueing `a` then `b` on a new mailbox,
      `dequeue` yields `a` and one mail is left. */
  method EnqueueTwiceDequeueOnce(a: TypedMessage, b: TypedMessage) returns (first: Option<TypedMessage>, left: nat)
    ensures first == Some(a) && left == 1
  {
    var mbx := new Mailbox();
    var _ := mbx.Enqueue(a);
    var _ := mbx.Enqueue(b);
    first := mbx.Dequeue();
    left := mbx.Len();
  }

  /** A message sent to a new mailbox is received into it and then dealt,
      with the reply naming its variant. */
  method SendReceiveDeal(msg: TypedMessage) returns (received: Result<(), string>, lenAfterReceive: nat, dealt: Result<string, string>)
    ensures received == Ok(()) && lenAfterReceive == 1
    ensures dealt == Ok(Reply(msg))
    ensures msg.SystemMsg? ==> dealt == Ok("Received SystemMsg")
  {
    var mbx := new Mailbox();
    mbx.Send(msg);
    received := mbx.Receive();
    lenAfterReceive := mbx.Len();
    dealt := mbx.Deal();
  }
}
