/**
 * The transaction the support code appends to: an ordered log of the
 * operations queued for the band, in the order they are sent.
 */
module Transactions {
  import opened JavaBytes

  /** The two characteristics the support code uses. */
  datatype Channel = Control | Measure

  datatype Op =
    | Notify(channel: Channel, enable: bool)
    | Write(channel: Channel, frame: seq<byte>)
    | Wait(millis: nat)

  class Transaction {
    var ops: seq<Op>

    constructor ()
      ensures ops == []
    {
      ops := [];
    }

    /** Subscribe to (or unsubscribe from) notifications of `channel`. */
    method Notify(channel: Channel, enable: bool)
      modifies this
      ensures ops == old(ops) + [Op.Notify(channel, enable)]
    {
      ops := ops + [Op.Notify(channel, enable)];
    }

    /** Write `frame` to `channel`. */
    method Write(channel: Channel, frame: seq<byte>)
      modifies this
      ensures ops == old(ops) + [Op.Write(channel, frame)]
    {
      ops := ops + [Op.Write(channel, frame)];
    }

    /** Hold the queue for `millis` milliseconds. */
    method Wait(millis: nat)
      modifies this
      ensures ops == old(ops) + [Op.Wait(millis)]
    {
      ops := ops + [Op.Wait(millis)];
    }
  }
}
