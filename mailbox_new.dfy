/** The later mailbox revision (raptors/src/mailbox_new.rs): the same FIFO
    queue, but the mailbox is handed the receive half of a channel created
    elsewhere and has no sending half of its own. The channel is modelled as
    the sequence of messages its receiver will yield, oldest first. */
module MailboxNew {
  import opened Wrappers
  import opened Messages
  import Replies = Mailbox

  class Mailbox {
    /** The queued mails, oldest first. */
    var mails: seq<TypedMessage>
    /** The messages the receive half will still yield, oldest first. */
    var rx: seq<TypedMessage>

    /** `Mailbox::new(rx)`: no mails, reading from the given receiver. */
    constructor (rx: seq<TypedMessage>)
      ensures mails == [] && this.rx == rx
      ensures Len() == 0 && IsEmpty()
    {
      mails := [];
      this.rx := rx;
    }

    /** `Len::len()`. */
    function Len(): (n: nat)
      reads this
      ensures n == |mails|
    {
      |mails|
    }

    /** `Len::is_empty()`: holds exactly when the length is zero. */
    function IsEmpty(): (b: bool)
      reads this
      ensures b <==> Len() == 0
    {
      mails == []
    }

    /** `mails()`: a copy of the queue, oldest first, as long as `len()`. */
    function Mails(): (ms: seq<TypedMessage>)
      reads this
      ensures ms == mails
      ensures |ms| == Len()
      ensures ms == [] <==> IsEmpty()
    {
      mails
    }

    /** `receive()`: moves the next received message to the back of the queue
        and returns `Ok`, or returns `Err` when nothing is available. */
    method Receive() returns (r: Result<(), string>)
      modifies this
      ensures old(rx) == [] ==> r == Err("Error!") && mails == old(mails) && rx == old(rx)
      ensures old(rx) != [] ==>
        r == Ok(()) && mails == old(mails) + [old(rx)[0]] && rx == old(rx)[1..]
      ensures r.Ok? ==> Len() == old(Len()) + 1
    {
      if rx != [] {
        var msg := rx[0];
        rx := rx[1..];
        r := Enqueue(msg);
      } else {
        r := Err("Error!");
      }
    }

    /** `enqueue(msg)`: appends at the back, always `Ok`. */
    method Enqueue(msg: TypedMessage) returns (r: Result<(), string>)
      modifies this
      ensures r == Ok(())
      ensures mails == old(mails) + [msg]
      ensures rx == old(rx)
    {
      mails := mails + [msg];
      r := Ok(());
    }

    /** `dequeue()`: `None` on an empty queue; otherwise removes and returns
        the oldest mail, shortening the queue by one. */
    method Dequeue() returns (m: Option<TypedMessage>)
      modifies this
      ensures old(mails) == [] ==> m == None && mails == old(mails)
      ensures old(mails) != [] ==> m == Some(old(mails)[0]) && mails == old(mails)[1..]
      ensures old(mails) != [] ==> Len() == old(Len()) - 1
      ensures rx == old(rx)
    {
      if mails == [] {
        m := None;
      } else {
        m := Some(mails[0]);
        mails := mails[1..];
      }
    }

    /** `deal()`: dequeues, then replies according to the mail's variant;
        `Err` when there was nothing to dequeue. */
    method Deal() returns (r: Result<string, string>)
      modifies this
      ensures old(mails) == [] ==> r == Err("Dequeue an empty mailbox") && mails == old(mails)
      ensures old(mails) != [] ==> r == Ok(Replies.Reply(old(mails)[0])) && mails == old(mails)[1..]
      ensures rx == old(rx)
    {
      var deq := Dequeue();
      match deq
      case None =>
        r := Err("Dequeue an empty mailbox");
      case Some(msg) =>
        r := Ok(Replies.Reply(msg));
    }
  }

  /** A message that reaches a new mailbox's receiver is received and dealt,
      with the reply naming its variant. */
  method ReceiveDeal(msg: TypedMessage) returns (received: Result<(), string>, lenAfterReceive: nat, dealt: Result<string, string>)
    ensures received == Ok(()) && lenAfterReceive == 1
    ensures dealt == Ok(Replies.Reply(msg))
  {
    var mbx := new Mailbox([msg]);
    received := mbx.Receive();
    lenAfterReceive := mbx.Len();
    dealt := mbx.Deal();
  }
}
