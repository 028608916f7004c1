/** A binary min-heap whose entries know their own position, as Go's container/heap keeps it
    for the event queue and for the ready outputs: push, pop, and removal from the middle. */
module IndexedHeap {

  /** One entry: ordered by time, then by number; `index` is its position, or -1. */
  class Item {
    const at: int
    const id: nat
    const tag: nat
    var index: int

    constructor (at: int, id: nat, tag: nat)
      ensures this.at == at && this.id == id && this.tag == tag && index == -1
    {
      this.at, this.id, this.tag, index := at, id, tag, -1;
    }
  }

  predicate Less(a: Item, b: Item) {
    if a.at == b.at then a.id < b.id else a.at < b.at
  }

  ghost predicate Leq(a: Item, b: Item) {
    !Less(b, a)
  }

  function Parent(k: int): int
    requires k > 0
  {
    (k - 1) / 2
  }

  /** Every entry below `n` except possibly `hole` is no earlier than its parent. */
  ghost predicate OrderedBut(q: seq<Item>, n: int, hole: int)
    requires n <= |q|
  {
    forall k :: 0 < k < n && k != hole ==> Leq(q[Parent(k)], q[k])
  }

  ghost predicate Ordered(q: seq<Item>, n: int)
    requires n <= |q|
  {
    forall k :: 0 < k < n ==> Leq(q[Parent(k)], q[k])
  }

  /** The children of `i` are no earlier than the parent of `i`. */
  ghost predicate Bridged(q: seq<Item>, n: int, i: int)
    requires n <= |q| && 0 <= i < |q|
  {
    i > 0 ==> forall k :: 0 < k < n && Parent(k) == i ==> Leq(q[Parent(i)], q[k])
  }

  /** Only the children of `i`, and `i` itself, may be out of order. */
  ghost predicate OrderedAround(q: seq<Item>, n: int, i: int)
    requires n <= |q|
  {
    forall k :: 0 < k < n && k != i && Parent(k) != i ==> Leq(q[Parent(k)], q[k])
  }

  lemma {:induction false} RootIsLeast(q: seq<Item>, n: int, k: int)
    requires n <= |q| && Ordered(q, n) && 0 <= k < n
    ensures Leq(q[0], q[k])
    decreases k
  {
    if k > 0 {
      RootIsLeast(q, n, Parent(k));
    }
  }

  function Swapped(q: seq<Item>, i: nat, j: nat): seq<Item>
    requires i < |q| && j < |q|
  {
    q[i := q[j]][j := q[i]]
  }

  ghost function Members(q: seq<Item>): set<Item> {
    set x | x in q
  }

  lemma SwappedMembers(q: seq<Item>, i: nat, j: nat)
    requires i < |q| && j < |q|
    ensures Members(Swapped(q, i, j)) == Members(q)
  {
    var s := Swapped(q, i, j);
    forall x ensures x in s <==> x in q {
      if x in q {
        var k :| 0 <= k < |q| && q[k] == x;
        assert s[if k == i then j else if k == j then i else k] == x;
      }
    }
  }

  /** One step up keeps the order everywhere but at the entry that moved. */
  lemma UpStep(q: seq<Item>, n: int, j: int)
    requires 0 < j < n <= |q|
    requires OrderedBut(q, n, j) && Bridged(q, n, j) && Less(q[j], q[Parent(j)])
    ensures var s := Swapped(q, Parent(j), j); OrderedBut(s, n, Parent(j)) && Bridged(s, n, Parent(j))
  {
    var i := Parent(j);
    var s := Swapped(q, i, j);
    forall k | 0 < k < n && k != i ensures Leq(s[Parent(k)], s[k]) {
      if k != j && Parent(k) == i {
        assert Leq(q[i], q[k]);
      }
    }
    if i > 0 {
      assert Leq(q[Parent(i)], q[i]);
      forall k | 0 < k < n && Parent(k) == i ensures Leq(s[Parent(i)], s[k]) {
        assert Leq(q[i], q[k]) || k == j;
      }
    }
  }

  /** One step down moves the only disorder to the child that was swapped. */
  lemma DownStep(q: seq<Item>, n: int, i: int, c: int)
    requires 0 <= i < c < n <= |q| && Parent(c) == i
    requires OrderedAround(q, n, i) && Bridged(q, n, i) && Less(q[c], q[i])
    requires forall k :: 0 < k < n && Parent(k) == i ==> Leq(q[c], q[k])
    ensures var s := Swapped(q, i, c);
      OrderedAround(s, n, c) && Bridged(s, n, c) && (i > 0 ==> Leq(s[Parent(i)], s[i])) && Leq(s[i], s[c])
  {
    var s := Swapped(q, i, c);
    forall k | 0 < k < n && k != c && Parent(k) != c ensures Leq(s[Parent(k)], s[k]) {
      if k == i {
        assert Leq(q[Parent(i)], q[c]);
      } else if Parent(k) == i {
      } else {
        assert Leq(q[Parent(k)], q[k]);
      }
    }
    forall k | 0 < k < n && Parent(k) == c ensures Leq(s[Parent(c)], s[k]) {
      assert Leq(q[Parent(k)], q[k]);
    }
  }

  // ---------- The heap ----------

  class Heap {
    var queue: seq<Item>

    /** Every entry records its own position; hence no entry occurs twice. */
    ghost predicate Indexed()
      reads this, queue
    {
      forall k :: 0 <= k < |queue| ==> queue[k].index == k
    }

    ghost predicate Valid()
      reads this, queue
    {
      Indexed() && Ordered(queue, |queue|)
    }

    ghost function Items(): set<Item>
      reads this
    {
      Members(queue)
    }

    constructor ()
      ensures Valid() && queue == []
    {
      queue := [];
    }

    method Swap(i: nat, j: nat)
      requires i < |queue| && j < |queue| && Indexed()
      modifies this, queue[i], queue[j]
      ensures queue == Swapped(old(queue), i, j) && Indexed()
      ensures Items() == old(Items())
    {
      SwappedMembers(queue, i, j);
      ghost var before := queue;
      queue := queue[i := queue[j]][j := queue[i]];
      queue[i].index := i;
      queue[j].index := j;
    }

    /** Raises the entry at `start` among the first `n`. */
    method Up(start: nat, n: nat)
      requires start < n <= |queue| && Indexed()
      requires OrderedBut(queue, n, start) && Bridged(queue, n, start)
      modifies this, queue
      ensures Indexed() && |queue| == old(|queue|) && Items() == old(Items())
      ensures Ordered(queue, n) && queue[n..] == old(queue[n..])
    {
      var j := start;
      while j > 0 && Less(queue[j], queue[Parent(j)])
        invariant 0 <= j < n <= |queue| == old(|queue|)
        invariant Indexed() && Items() == old(Items())
        invariant queue[n..] == old(queue[n..])
        invariant OrderedBut(queue, n, j) && Bridged(queue, n, j)
        decreases j
      {
        UpStep(queue, n, j);
        InMembers(queue, old(queue));
        Swap(Parent(j), j);
        j := Parent(j);
      }
    }

    /** Sinks the entry at `start` among the first `n`; tells whether it moved. */
    method Down(start: nat, n: nat) returns (moved: bool)
      requires start < n <= |queue| && Indexed()
      requires OrderedAround(queue, n, start) && Bridged(queue, n, start)
      modifies this, queue
      ensures Indexed() && |queue| == old(|queue|) && Items() == old(Items())
      ensures queue[n..] == old(queue[n..])
      ensures moved ==> Ordered(queue, n)
      ensures !moved ==> queue == old(queue) && OrderedBut(queue, n, start)
    {
      hide OrderedAround, Bridged, OrderedBut, Ordered, Leq, Less;
      var i := start;
      ghost var first := queue;
      while 2 * i + 1 < n
        invariant start <= i < n <= |queue| == |first|
        invariant Indexed() && Items() == Members(first)
        invariant queue[n..] == first[n..]
        invariant OrderedAround(queue, n, i) && Bridged(queue, n, i)
        invariant i == start ==> queue == first
        invariant i > start ==> Leq(queue[Parent(i)], queue[i])
        decreases n - i
      {
        var c := 2 * i + 1;
        if c + 1 < n && Less(queue[c + 1], queue[c]) {
          c := c + 1;
        }
        EarliestChild(queue, n, i, c);
        if !Less(queue[c], queue[i]) {
          break;
        }
        DownStep(queue, n, i, c);
        InMembers(queue, first);
        ghost var before := queue;
        Swap(i, c);
        assert queue == Swapped(before, i, c);
        assert queue[n..] == before[n..];
        i := c;
      }
      Settled(queue, n, i);
      return i > start;
    }

    method Push(item: Item)
      requires Valid() && item !in Items()
      modifies this, queue, item
      ensures Valid() && Items() == old(Items()) + {item} && |queue| == old(|queue|) + 1
    {
      item.index := |queue|;
      queue := queue + [item];
      Up(|queue| - 1, |queue|);
    }

    /** The last entry leaves the slice; the others stay where they are. */
    method DropLast() returns (item: Item)
      requires queue != [] && Indexed() && Ordered(queue, |queue| - 1)
      modifies this, queue[|queue| - 1]
      ensures Valid() && item == old(queue[|queue| - 1]) && item.index == -1
      ensures queue == old(queue)[..|old(queue)| - 1]
      ensures item in old(Items()) && Items() == old(Items()) - {item}
    {
      var last := |queue| - 1;
      item := queue[last];
      ghost var before := queue;
      queue := queue[..last];
      item.index := -1;
      assert before == queue + [item];
      assert forall k :: 0 <= k < last ==> queue[k] != item;
    }

    /** Removes the earliest entry. */
    method Pop() returns (item: Item)
      requires Valid() && queue != []
      modifies this, queue
      ensures Valid() && item.index == -1 && |queue| == old(|queue|) - 1
      ensures item == old(queue[0]) && item in old(Items()) && Items() == old(Items()) - {item}
      ensures forall other :: other in old(Items()) ==> Leq(item, other)
    {
      var n := |queue| - 1;
      forall other | other in Items() ensures Leq(queue[0], other) {
        RootIsLeast(queue, |queue|, other.index);
      }
      ghost var before := queue;
      Swap(0, n);
      InMembers(queue, before);
      if n > 0 {
        var moved := Down(0, n);
        assert queue[n..] == [before[0]];
        assert queue[n] == before[0];
        InMembers(queue, before);
      }
      item := DropLast();
    }

    /** Removes the entry at position `i`, wherever it is. */
    method Remove(i: nat) returns (item: Item)
      requires Valid() && i < |queue|
      modifies this, queue
      ensures Valid() && item == old(queue[i]) && item.index == -1 && |queue| == old(|queue|) - 1
      ensures item in old(Items()) && Items() == old(Items()) - {item}
    {
      var n := |queue| - 1;
      ghost var before := queue;
      if n != i {
        Swap(i, n);
        SwappedAround(before, i, n);
        InMembers(queue, before);
        var moved := Down(i, n);
        InMembers(queue, before);
        assert queue[n..][0] == before[i];
        if !moved {
          Up(i, n);
        }
        InMembers(queue, before);
      }
      item := DropLast();
    }
  }

  lemma EarliestChild(q: seq<Item>, n: int, i: int, c: int)
    requires 0 <= i && 2 * i + 1 < n <= |q|
    requires c == if 2 * i + 2 < n && Less(q[2 * i + 2], q[2 * i + 1]) then 2 * i + 2 else 2 * i + 1
    ensures Parent(c) == i < c < n
    ensures forall k :: 0 < k < n && Parent(k) == i ==> Leq(q[c], q[k])
  {
    forall k | 0 < k < n && Parent(k) == i ensures Leq(q[c], q[k]) {
      assert k == 2 * i + 1 || k == 2 * i + 2;
    }
  }

  /** No child of `i`, or none earlier than it: the disorder is gone below `i`. */
  lemma Settled(q: seq<Item>, n: int, i: int)
    requires 0 <= i < n <= |q| && OrderedAround(q, n, i)
    requires 2 * i + 1 < n ==>
      var c := if 2 * i + 2 < n && Less(q[2 * i + 2], q[2 * i + 1]) then 2 * i + 2 else 2 * i + 1;
      !Less(q[c], q[i])
    ensures OrderedBut(q, n, i)
    ensures i == 0 || Leq(q[Parent(i)], q[i]) ==> Ordered(q, n)
  {
    forall k | 0 < k < n && k != i ensures Leq(q[Parent(k)], q[k]) {
      if Parent(k) == i {
        assert k == 2 * i + 1 || k == 2 * i + 2;
      }
    }
  }

  /** Swapping the last entry into position `i` disturbs only the neighbourhood of `i`. */
  lemma SwappedAround(q: seq<Item>, i: nat, n: nat)
    requires i < n == |q| - 1 && Ordered(q, |q|)
    ensures var s := Swapped(q, i, n); OrderedAround(s, n, i) && Bridged(s, n, i) && s[n] == q[i]
  {
    var s := Swapped(q, i, n);
    forall k | 0 < k < n && k != i && Parent(k) != i ensures Leq(s[Parent(k)], s[k]) {
      assert Leq(q[Parent(k)], q[k]);
    }
    if i > 0 {
      forall k | 0 < k < n && Parent(k) == i ensures Leq(s[Parent(i)], s[k]) {
        assert Leq(q[Parent(i)], q[i]) && Leq(q[i], q[k]);
      }
    }
  }

  lemma InMembers(q: seq<Item>, r: seq<Item>)
    requires Members(q) == Members(r)
    ensures forall k :: 0 <= k < |q| ==> q[k] in r
  {
    forall k | 0 <= k < |q| ensures q[k] in r {
      assert q[k] in Members(q);
    }
  }

  lemma Joined(before: seq<Item>, after: seq<Item>, item: Item)
    requires Members(after) == Members(before) + {item}
    ensures forall x :: x in after <==> x in before || x == item
  {
    forall x ensures x in after <==> x in before || x == item {
      assert x in after <==> x in Members(after);
    }
  }

  lemma Left(before: seq<Item>, after: seq<Item>, item: Item)
    requires Members(after) == Members(before) - {item}
    ensures forall x :: x in after <==> x in before && x != item
  {
    forall x ensures x in after <==> x in before && x != item {
      assert x in after <==> x in Members(after);
    }
  }
}
