/**
 * A Go channel `chan T` seen as its buffer: a FIFO of at most `capacity`
 * elements. An unbuffered channel has capacity 0. Only the operations
 * the modelled code performs are here: making a channel and sending on it.
 */
module Channels {

  class Channel<T> {
    const capacity: nat
    var buffer: seq<T>

    /** The buffer never holds more elements than the channel's capacity. */
    ghost predicate Valid()
      reads this
    {
      |buffer| <= capacity
    }

    /** `make(chan T, capacity)`: a new, empty channel. */
    constructor (capacity: nat)
      ensures Valid()
      ensures this.capacity == capacity && buffer == []
    {
      this.capacity := capacity;
      buffer := [];
    }

    /**
     * `ch <- x`. Go blocks the sender while the buffer is full; here the
     * caller must know that there is room.
     */
    method Send(x: T)
      requires Valid()
      requires |buffer| < capacity
      modifies this
      ensures Valid()
      ensures buffer == old(buffer) + [x]
    {
      buffer := buffer + [x];
    }
  }
}
