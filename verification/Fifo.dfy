/** The waiting queue of links, inputs, outputs and hosts: a slice whose consumed prefix is
    skipped by a head index and reclaimed only once it is large. */
module Fifo {

  const MIN_CONSUMED_SLOTS: nat := 1024

  class Queue<T> {
    var slots: seq<T>
    var head: nat
    const blank: T

    /** The prefix kept in memory never exceeds both the fixed slack and what is waiting. */
    predicate Valid()
      reads this
    {
      head <= |slots| && (head == 0 || head < MIN_CONSUMED_SLOTS || head < |slots| - head)
    }

    function Waiting(): seq<T>
      reads this
      requires Valid()
    {
      slots[head..]
    }

    constructor (blank: T)
      ensures Valid() && Waiting() == []
    {
      this.blank := blank;
      slots, head := [], 0;
    }

    method Push(item: T)
      requires Valid()
      modifies this
      ensures Valid() && Waiting() == old(Waiting()) + [item]
    {
      slots := slots + [item];
    }

    /** First in, first out. */
    method Pop() returns (item: T)
      requires Valid() && Waiting() != []
      modifies this
      ensures Valid() && item == old(Waiting())[0] && Waiting() == old(Waiting())[1..]
    {
      item := slots[head];
      slots := slots[head := blank];
      head := head + 1;
      var remaining := |slots| - head;
      if remaining == 0 {
        slots, head := [], 0;
      } else if head >= MIN_CONSUMED_SLOTS && head >= remaining {
        slots, head := slots[head..], 0;
      }
    }

    method Clear()
      modifies this
      ensures Valid() && Waiting() == []
    {
      slots, head := [], 0;
    }
  }
}
