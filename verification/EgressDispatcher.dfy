/** The dispatcher as the source keeps it: a heap of ready outputs beside the output queues,
    updated in place, proved equal to `Egress`. */
module EgressDispatcher {
  import opened Basics
  import opened Serialization
  import opened IndexedHeap
  import opened Egress
  import Safety = EgressSafety

  /** Every step is one the engine may take when its turn comes. */
  ghost predicate Runnable(c: Config, steps: seq<Step>) {
    ValidConfig(c) && forall k :: 0 <= k < |steps| ==>
      var s := Safety.Run(c, steps[..k]);
      ValidConfig(s.c) && |s.outputs| == |s.c.capacity| && Enabled(s, steps[k])
  }

  class Dispatcher {
    const c: Config
    var now: int
    var outputs: seq<Output>
    const readyOutputs: Heap
    var entries: map<nat, Item>
    var nextSequence: nat
    var budget: Budget
    var wake: Wake
    var wait: Wait
    var stats: Stats
    ghost var admitted: seq<Admission>
    ghost var starts: seq<Start>
    ghost var blocked: int

    /** Heap entries are ready outputs, keyed by their head's age and number. */
    ghost predicate Consistent()
      reads this, readyOutputs, readyOutputs.queue
    {
      && Linked()
      && (forall o :: o in entries ==> Keyed(entries[o], outputs[o]))
    }

    /** The heap and the output positions name the same entries. */
    ghost predicate Linked()
      reads this, readyOutputs, readyOutputs.queue
    {
      && readyOutputs.Valid() && nextSequence == |admitted|
      && ValidConfig(c) && |outputs| == |c.capacity|
      && Agree(readyOutputs.queue, entries, |outputs|)
    }

    /** Every ready output but possibly `except` has its entry. */
    ghost predicate CompleteBut(except: int)
      reads this
    {
      forall o :: 0 <= o < |outputs| && Ready(outputs[o]) && o != except ==> o in entries
    }

    /** The heap holds an entry for each ready output and nothing else. */
    ghost predicate Coherent()
      reads this, readyOutputs, readyOutputs.queue
    {
      Consistent() && CompleteBut(-1)
    }

    /** What also holds inside one callback. */
    ghost predicate Dispatching()
      reads this, readyOutputs, readyOutputs.queue
    {
      Coherent() && Safety.Core(Value())
    }

    /** What holds between two events. */
    ghost predicate Valid()
      reads this, readyOutputs, readyOutputs.queue
    {
      Coherent() && Safety.Inv(Value())
    }

    ghost function Value(): State
      reads this
    {
      State(c, now, outputs, budget, wake, wait, stats, admitted, starts, blocked)
    }

    constructor (c: Config)
      requires ValidConfig(c)
      ensures Valid() && fresh(readyOutputs) && readyOutputs.queue == [] && Value() == Init(c)
    {
      hide Safety.Inv, Safety.Core;
      this.c, now, outputs := c, 0, seq(|c.bandwidth|, _ => Output([], false, 0));
      entries, nextSequence, budget, wake, wait := map[], 0, Budget(0, false), Wake(0, 0, map[], 0), Wait(0, false, 0);
      stats, admitted, starts, blocked := Stats(0, 0, 0, 0, 0, 0, 0), [], [], 0;
      readyOutputs := new Heap();
      new;
      Safety.InitInv(c);
    }

    lemma HeapMeansReady()
      requires Coherent()
      ensures readyOutputs.queue != [] <==> AnyReady(outputs)
    {
      if readyOutputs.queue != [] {
        assert readyOutputs.queue[0] in readyOutputs.queue;
        assert Ready(outputs[readyOutputs.queue[0].tag]);
      }
    }

    /** Output `o` has changed; afterwards every ready output, and no other, is in the heap once. */
    method MarkReady(o: nat)
      requires Linked() && CompleteBut(o) && o < |outputs|
      requires forall p :: p in entries && (p != o || Ready(outputs[o])) ==> Keyed(entries[p], outputs[p])
      modifies this`entries, readyOutputs, readyOutputs.queue
      ensures Coherent()
      ensures fresh(set x | x in readyOutputs.queue && x !in old(readyOutputs.queue))
    {
      var eligible := outputs[o].queue != [] && !outputs[o].busy;
      if !eligible && o in entries {
        ghost var before := readyOutputs.queue;
        var item := readyOutputs.Remove(entries[o].index);
        AgreeWithout(before, readyOutputs.queue, entries, |outputs|, item);
        entries := entries - {o};
      }
      if eligible && o !in entries {
        var head := outputs[o].queue[0];
        var item := new Item(head.queuedAt, head.sequence, o);
        ghost var before := readyOutputs.queue;
        assert item !in readyOutputs.Items();
        readyOutputs.Push(item);
        AgreeWith(before, readyOutputs.queue, entries, |outputs|, item);
        entries := entries[o := item];
      }
    }

    /** The root of the heap is the one oldest ready output. */
    lemma RootIsOldest()
      requires Dispatching() && readyOutputs.queue != []
      ensures AnyReady(outputs)
      ensures var o := readyOutputs.queue[0].tag; o < |outputs| && Ready(outputs[o]) && o == Oldest(outputs)
    {
      var queue := readyOutputs.queue;
      var root := queue[0];
      assert root in queue;
      var o := root.tag;
      assert o in entries && Keyed(root, outputs[o]);
      forall p | 0 <= p < |outputs| && Ready(outputs[p]) ensures !Older(outputs[p].queue[0], outputs[o].queue[0]) {
        RootIsLeast(queue, |queue|, entries[p].index);
        assert Keyed(entries[p], outputs[p]);
      }
      assert IsOldest(outputs, o);
      Safety.OldestUnique(c, now, outputs, admitted, o, Oldest(outputs));
    }

    /** Takes the root of the heap. */
    method PopOldest() returns (o: nat)
      requires Dispatching() && readyOutputs.queue != []
      modifies this`entries, readyOutputs, readyOutputs.queue
      ensures Consistent() && CompleteBut(o) && o !in entries
      ensures AnyReady(outputs) && o == Oldest(outputs) && o < |outputs| && Ready(outputs[o])
      ensures forall x :: x in readyOutputs.queue ==> x in old(readyOutputs.queue)
    {
      hide Safety.Core, IsOldest, Ordered, AnyReady, Agree, Keyed;
      RootIsOldest();
      ghost var before := readyOutputs.queue;
      assert before[0] in before;
      var item := readyOutputs.Pop();
      AgreeWithout(before, readyOutputs.queue, entries, |outputs|, item);
      o := item.tag;
      entries := entries - {o};
    }

    /** Starts the head of `o` on its free link and reserves the budget. */
    method Start(o: nat)
      requires Consistent() && CompleteBut(o) && o !in entries && o < |outputs| && Ready(outputs[o])
      modifies this`outputs, this`stats, this`budget, this`starts
      ensures Coherent() && Value() == Started(old(Value()), o)
    {
      starts := starts + [Egress.Start(now, outputs[o].queue[0].sequence, Heads(outputs))];
      var packet := outputs[o].queue[0];
      outputs := outputs[o := Output(outputs[o].queue[1..], true, now + Duration(packet.size, c.bandwidth[o]))];
      stats := stats.(queued := stats.queued - 1, forwarded := stats.forwarded + 1,
                      forwardedBytes := stats.forwardedBytes + packet.size);
      ReserveBudget(packet.cost);
    }

    method ReserveBudget(cost: nat)
      modifies this`budget
      ensures budget == Reserved(c, now, cost)
    {
      var remaining := c.endTime - now;
      if cost > remaining {
        budget := Budget(c.endTime, true);
        return;
      }
      budget := Budget(now + cost, false);
    }

    method AccountBudgetWait()
      requires Coherent()
      modifies this`wait
      ensures Coherent() && Value() == Accounted(old(Value()))
    {
      HeapMeansReady();
      var total := wait.total;
      if wait.waiting {
        var until := now;
        if !budget.beyondEnd && until > budget.nextGrantAt {
          until := budget.nextGrantAt;
        }
        if until > wait.startedAt {
          total := total + (until - wait.startedAt);
        }
      }
      wait := Wait(total, |readyOutputs.queue| > 0 && Unavailable(budget, now), now);
    }

    method ScheduleBudgetWake()
      requires Coherent()
      modifies this`wake
      ensures Coherent() && Value() == WakeScheduled(old(Value()))
    {
      HeapMeansReady();
      var needsWake := |readyOutputs.queue| > 0 && Unavailable(budget, now) && !budget.beyondEnd;
      if needsWake && wake.event != 0 && wake.at == budget.nextGrantAt {
        return;
      }
      if wake.event != 0 {
        wake := wake.(event := 0, pending := wake.pending - {wake.event});
      }
      if !needsWake {
        return;
      }
      var event := wake.nextEvent + 1;
      wake := Wake(event, budget.nextGrantAt, wake.pending[event := budget.nextGrantAt], event);
    }

    /** One turn of the dispatch loop. */
    method StartOldest()
      requires Dispatching() && |readyOutputs.queue| > 0 && !Unavailable(budget, now)
      modifies this`outputs, this`stats, this`budget, this`starts, this`entries, readyOutputs, readyOutputs.queue
      ensures Dispatching() && QueuedSum(outputs) < QueuedSum(old(outputs))
      ensures Drained(old(Value())) == Drained(Value())
      ensures forall x :: x in readyOutputs.queue ==> x in old(readyOutputs.queue)
    {
      ghost var before := Value();
      var o := PopOldest();
      hide Drained, Heads, IsOldest, AnyReady;
      Safety.StartedKeeps(before, o);
      DrainedStep(before);
      hide Safety.Core;
      Start(o);
    }

    /** Starts the oldest ready heads while the budget allows. */
    method Drain()
      requires Dispatching()
      modifies this`outputs, this`stats, this`budget, this`starts, this`entries, readyOutputs, readyOutputs.queue
      ensures Coherent() && Value() == Drained(old(Value()))
      ensures forall x :: x in readyOutputs.queue ==> x in old(readyOutputs.queue)
    {
      ghost var start := Value();
      hide Safety.Core, Drained, AnyReady;
      while |readyOutputs.queue| > 0 && !Unavailable(budget, now)
        invariant Dispatching()
        invariant Drained(start) == Drained(Value())
        invariant forall x :: x in readyOutputs.queue ==> x in old(readyOutputs.queue)
        decreases QueuedSum(outputs)
      {
        assert forall k :: 0 <= k < |readyOutputs.queue| ==> readyOutputs.queue[k] in old(readyOutputs.queue);
        StartOldest();
      }
      HeapMeansReady();
      DrainedDone(Value());
    }

    /** One dispatch: the wait is closed before and after, and the wake-up follows the grant. */
    method Dispatch()
      requires Dispatching()
      modifies this, readyOutputs, readyOutputs.queue
      ensures Coherent() && Value() == Dispatched(old(Value()))
      ensures forall x :: x in readyOutputs.queue ==> x in old(readyOutputs.queue)
    {
      ghost var start := Value();
      AccountBudgetWait();
      Safety.CoreIgnoresWait(start, Value());
      hide Safety.Core, Drained, Accounted, WakeScheduled;
      Drain();
      AccountBudgetWait();
      ScheduleBudgetWake();
    }

    /** What follows every change of one output. */
    method MarkAndDispatch(o: nat)
      requires Linked() && CompleteBut(o) && o < |outputs| && Safety.Core(Value())
      requires forall p :: p in entries && (p != o || Ready(outputs[o])) ==> Keyed(entries[p], outputs[p])
      modifies this, readyOutputs, readyOutputs.queue
      ensures Coherent() && Value() == Dispatched(old(Value()))
      ensures fresh(set x | x in readyOutputs.queue && x !in old(readyOutputs.queue))
    {
      hide Safety.Core, Dispatched, AnyReady;
      MarkReady(o);
      assert Value() == old(Value());
      Dispatch();
    }

    /** Nothing has to be waited for: not the link, not the budget, and no other output. */
    ghost predicate StartsAtOnce(o: nat)
      reads this
      requires o < |outputs|
    {
      && !outputs[o].busy && outputs[o].queue == [] && !budget.beyondEnd && budget.nextGrantAt <= now
      && forall q :: 0 <= q < |outputs| ==> outputs[q].busy || outputs[q].queue == []
    }

    lemma AtOnce(o: nat)
      requires o < |outputs|
      ensures StartsAtOnce(o) <==> CanStartNow(Value(), o)
    {
      if AnyReady(outputs) {
        var q :| 0 <= q < |outputs| && Ready(outputs[q]);
        assert !(outputs[q].busy || outputs[q].queue == []);
      }
      if !StartsAtOnce(o) && (exists q :: 0 <= q < |outputs| && !(outputs[q].busy || outputs[q].queue == [])) {
        var q :| 0 <= q < |outputs| && !(outputs[q].busy || outputs[q].queue == []);
        assert Ready(outputs[q]);
      }
    }

    /** Admits a packet, signalling congestion when it must wait, or drops it. */
    method TransmitECN(o: nat, size: nat, ecn: ECNState, congested: bool) returns (accepted: bool)
      requires Valid() && o < |outputs|
      modifies this, readyOutputs, readyOutputs.queue
      ensures Valid() && Value() == Transmitted(old(Value()), o, size, ecn, congested)
      ensures accepted <==> old(StartsAtOnce(o)) || (|old(outputs)[o].queue| < c.capacity[o] && !(congested && ecn == NotCapable))
      ensures fresh(set x | x in readyOutputs.queue && x !in old(readyOutputs.queue))
    {
      hide Safety.Core, Safety.Inv, AnyReady, Dispatched, Duration, Appended, Agree, Keyed;
      Safety.TransmitKeeps(Value(), o, size, ecn, congested);
      DispatchingNow();
      AtOnce(o);
      HeapMeansReady();
      var cost := Duration(size, c.rate);
      var linkFree := !outputs[o].busy && |outputs[o].queue| == 0;
      var budgetFree := !Unavailable(budget, now);
      var canStartNow := linkFree && budgetFree && |readyOutputs.queue| == 0;
      var queueFull := |outputs[o].queue| >= c.capacity[o];
      var admits := canStartNow || !queueFull;
      var selected := admits && !canStartNow && congested;
      assert canStartNow == CanStartNow(Value(), o);
      if !admits || (selected && ecn.NotCapable?) {
        stats := stats.(offered := stats.offered + 1, dropped := stats.dropped + 1);
        return false;
      }
      Admit(o, size, cost, ecn, selected);
      return true;
    }

    method Admit(o: nat, size: nat, cost: nat, ecn: ECNState, selected: bool)
      requires Dispatching() && o < |outputs| && cost == Duration(size, c.rate)
      modifies this, readyOutputs, readyOutputs.queue
      ensures Coherent() && Value() == Dispatched(Appended(old(Value()), o, size, ecn, selected))
      ensures fresh(set x | x in readyOutputs.queue && x !in old(readyOutputs.queue))
    {
      Safety.AppendedCore(Value(), o, size, ecn, selected);
      hide Safety.Core, Dispatched, Appended, Duration;
      Append(o, size, cost, ecn, selected);
      MarkAndDispatch(o);
    }

    method Append(o: nat, size: nat, cost: nat, ecn: ECNState, selected: bool)
      requires Coherent() && o < |outputs| && cost == Duration(size, c.rate)
      modifies this`stats, this`nextSequence, this`admitted, this`outputs
      ensures Linked() && CompleteBut(o)
      ensures forall p :: p in entries && (p != o || Ready(outputs[o])) ==> Keyed(entries[p], outputs[p])
      ensures Value() == Appended(old(Value()), o, size, ecn, selected)
    {
      var mark := selected && ecn.Capable?;
      stats := stats.(offered := stats.offered + 1, accepted := stats.accepted + 1, queued := stats.queued + 1,
                      marked := if mark then stats.marked + 1 else stats.marked);
      nextSequence := nextSequence + 1;
      var packet := Packet(size, cost, ecn.AlreadyMarked? || mark, now, nextSequence);
      admitted := admitted + [Admission(o, size, cost, now, packet.marked)];
      outputs := outputs[o := outputs[o].(queue := outputs[o].queue + [packet])];
    }

    /** The link of `o` has finished a transmission. */
    method LinkReady(o: nat)
      requires Valid() && o < |outputs| && outputs[o].busy
      modifies this, readyOutputs, readyOutputs.queue
      ensures Valid() && Value() == Dispatched(Freed(old(Value()), o))
      ensures fresh(set x | x in readyOutputs.queue && x !in old(readyOutputs.queue))
    {
      hide Safety.Core, Safety.Inv, Dispatched, AnyReady;
      Safety.FreeKeeps(Value(), o);
      DispatchingNow();
      Safety.FreedCore(Value(), o);
      outputs := outputs[o := outputs[o].(busy := false)];
      MarkAndDispatch(o);
    }

    /** The budget wake-up fires. */
    method WakeFired(event: nat)
      requires Valid() && event in wake.pending
      modifies this, readyOutputs, readyOutputs.queue
      ensures Valid() && Value() == Dispatched(Woken(old(Value()), event))
      ensures forall x :: x in readyOutputs.queue ==> x in old(readyOutputs.queue)
    {
      hide Safety.Core, Safety.Inv, Dispatched, AnyReady, Agree, Keyed;
      ghost var before := Value();
      Safety.WakeKeeps(before, event);
      DispatchingNow();
      wake := wake.(event := 0, pending := wake.pending - {event});
      Safety.CoreIgnoresWait(before, Value());
      Dispatch();
    }

    /** The engine's clock moves between two events. */
    method Elapse(to: int)
      requires Valid() && Enabled(Value(), Egress.Elapse(to))
      modifies this`now, this`blocked
      ensures Valid() && Value() == Elapsed(old(Value()), to)
    {
      hide Safety.Inv, Agree, Keyed, Enabled;
      Safety.ElapseKeeps(Value(), to);
      blocked := blocked + if Blocked(Value()) then to - now else 0;
      now := to;
    }

    /** The statistics read the open interval without closing it. */
    method BudgetWait() returns (total: int)
      requires Valid()
      ensures total == blocked
    {
      total := wait.total + CurrentWait(wait, budget, now);
    }

    lemma DispatchingNow()
      requires Valid()
      ensures Dispatching()
    {
      hide Safety.Core, Agree, Keyed;
    }

    // ---------- Whole runs ----------

    /** One event that the engine may fire now. */
    method Perform(step: Step)
      requires Valid() && Enabled(Value(), step)
      modifies this, readyOutputs, readyOutputs.queue
      ensures Valid() && Value() == Next(old(Value()), step)
      ensures fresh(set x | x in readyOutputs.queue && x !in old(readyOutputs.queue))
    {
      hide Safety.Core, Safety.Inv, Dispatched, Transmitted, AnyReady, Agree, Keyed, Duration;
      match step
      case Transmit(o, size, ecn, congested) => var accepted := TransmitECN(o, size, ecn, congested);
      case LinkFree(o) => LinkReady(o);
      case WakeUp(event) => WakeFired(event);
      case Elapse(to) => Elapse(to);
    }

    /** Any run of a new dispatcher: starts follow admission order among ready heads, and what the
        outputs still hold is all that was admitted and not started. */
    method Play(steps: seq<Step>)
      requires Valid() && Value() == Init(c) && Runnable(c, steps)
      modifies this, readyOutputs, readyOutputs.queue
      ensures Valid() && Value() == Safety.Run(c, steps)
      ensures Safety.OldestFirst(admitted, starts) && |admitted| == |starts| + QueuedSum(outputs)
      ensures wait.total + CurrentWait(wait, budget, now) == blocked
    {
      hide Safety.Core, Safety.Inv, Next, Init, Enabled, Agree, Keyed, Safety.OldestFirst;
      for k := 0 to |steps|
        invariant Valid() && Value() == Safety.Run(c, steps[..k])
        invariant fresh(set x | x in readyOutputs.queue && x !in old(readyOutputs.queue))
      {
        assert steps[..k + 1][..k] == steps[..k];
        Perform(steps[k]);
      }
      assert steps[..|steps|] == steps;
      Safety.OldestReadyFirst(c, steps);
      Safety.BudgetWaitExact(c, steps);
    }
  }

  /** The entry of an output: ready, and ordered by its waiting head. */
  ghost predicate Keyed(item: Item, out: Output) {
    Ready(out) && item.at == out.queue[0].queuedAt && item.id == out.queue[0].sequence
  }

  /** The heap's slice and the positions by output are the same entries. */
  ghost predicate Agree(queue: seq<Item>, entries: map<nat, Item>, outputs: nat) {
    && (forall x :: x in queue ==> x.tag in entries && entries[x.tag] == x)
    && (forall o :: o in entries ==> entries[o] in queue && entries[o].tag == o < outputs)
  }

  lemma AgreeWith(queue: seq<Item>, after: seq<Item>, entries: map<nat, Item>, outputs: nat, item: Item)
    requires Agree(queue, entries, outputs) && Members(after) == Members(queue) + {item}
    requires item.tag < outputs && item.tag !in entries
    ensures Agree(after, entries[item.tag := item], outputs)
  {
    Joined(queue, after, item);
  }

  lemma AgreeWithout(queue: seq<Item>, after: seq<Item>, entries: map<nat, Item>, outputs: nat, item: Item)
    requires Agree(queue, entries, outputs) && item in queue && Members(after) == Members(queue) - {item}
    ensures Agree(after, entries - {item.tag}, outputs) && forall x :: x in after ==> x in queue
  {
    Left(queue, after, item);
  }

  lemma DrainedStep(s: State)
    requires ValidConfig(s.c) && |s.outputs| == |s.c.bandwidth|
    requires AnyReady(s.outputs) && !Unavailable(s.budget, s.now)
    ensures Drained(s) == Drained(Started(s, Oldest(s.outputs)))
  {
  }

  lemma DrainedDone(s: State)
    requires ValidConfig(s.c) && |s.outputs| == |s.c.bandwidth|
    requires !(AnyReady(s.outputs) && !Unavailable(s.budget, s.now))
    ensures Drained(s) == s
  {
  }
}
