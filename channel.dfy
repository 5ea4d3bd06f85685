/** A buffered Go channel carrying `error` values, as far as the observer
    registry uses one: the registry sends and closes; the caller holding the
    receive end only reads, which this model does not need. */
module Channels {
  import opened Wrappers
  import opened MdTypes

  class Chan {
    const capacity: nat
    /** Every value sent, oldest first; None is a nil error. Receiving is
        not modelled, since the registry never reads from its channels. */
    var buffer: seq<Option<Err>>
    var closed: bool

    /** make(chan error, capacity) */
    constructor (capacity: nat)
      ensures this.capacity == capacity && buffer == [] && !closed
    {
      this.capacity := capacity;
      buffer := [];
      closed := false;
    }

    /** A send on a closed channel panics and one on a full channel blocks,
        so a caller may only send when neither can happen. */
    method Send(v: Option<Err>)
      requires !closed && |buffer| < capacity
      modifies this
      ensures buffer == old(buffer) + [v] && !closed
    {
      buffer := buffer + [v];
    }

    /** Closing a channel twice panics. */
    method Close()
      requires !closed
      modifies this
      ensures closed && buffer == old(buffer)
    {
      closed := true;
    }

    /** A freshly made one-slot channel that nobody has signalled yet. */
    ghost predicate Idle()
      reads this
    {
      !closed && buffer == [] && capacity == 1
    }

    /** Signalled once with "update seen" (a nil error) and closed. */
    ghost predicate Updated()
      reads this
    {
      closed && buffer == [None]
    }

    /** Signalled once with MDServerDisconnected and closed. */
    ghost predicate Disconnected()
      reads this
    {
      closed && buffer == [Some(MDServerDisconnected)]
    }

    /** Closed without any value, as a failed registration leaves it. */
    ghost predicate Withdrawn()
      reads this
    {
      closed && buffer == []
    }
  }
}
