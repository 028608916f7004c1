/** The virtual-time event engine: a deterministic schedule over a heap with cancellation.

    A callback is whatever it schedules and cancels, chosen by any function of the events
    fired so far. `RunSpec` says what a run means on a map of pending events; the class is
    the heap and the lookup table of the source, proved equal to it. */
module Engine {
  import opened Basics
  import opened IndexedHeap

  /** One executed callback: its virtual time and its number. */
  datatype Fired = Fired(at: int, id: nat)

  datatype Action = Schedule(delay: nat) | Cancel(id: nat)

  type Behaviour = seq<Fired> -> seq<Action>

  datatype View = View(
    now: int,
    endTime: int,
    nextID: nat,
    pending: map<nat, int>,
    executed: nat,
    fired: seq<Fired>)

  /** A bound in the past or beyond the end is refused before anything runs. */
  datatype Outcome = Reached | LimitReached | Refused

  // ---------- One operation ----------

  /** Schedules relative to now; nothing is kept past the end time. */
  function Scheduled(v: View, delay: nat): View {
    if delay > v.endTime - v.now then v
    else v.(nextID := v.nextID + 1, pending := v.pending[v.nextID + 1 := v.now + delay])
  }

  function Cancelled(v: View, id: nat): View {
    v.(pending := v.pending - {id})
  }

  function Applied(v: View, action: Action): View {
    match action
    case Schedule(delay) => Scheduled(v, delay)
    case Cancel(id) => Cancelled(v, id)
  }

  function AppliedAll(v: View, actions: seq<Action>): View
    decreases |actions|
  {
    if actions == [] then v else AppliedAll(Applied(v, actions[0]), actions[1..])
  }

  // ---------- The next event ----------

  predicate Before(at: int, id: nat, at': int, id': nat) {
    at < at' || (at == at' && id < id')
  }

  /** `id` is the earliest pending event; equal times follow scheduling order. */
  ghost predicate IsNext(pending: map<nat, int>, id: nat) {
    && id in pending
    && forall other :: other in pending && other != id ==> Before(pending[id], id, pending[other], other)
  }

  lemma {:induction false} NextExists(pending: map<nat, int>)
    requires pending != map[]
    ensures exists id :: IsNext(pending, id)
    decreases |pending|
  {
    var any :| any in pending;
    var rest := pending - {any};
    assert forall other :: other in pending && other != any ==> other in rest;
    if rest == map[] {
      assert IsNext(pending, any);
    } else {
      NextExists(rest);
      var id :| IsNext(rest, id);
      assert IsNext(pending, if Before(pending[id], id, pending[any], any) then id else any);
    }
  }

  ghost function NextID(pending: map<nat, int>): (id: nat)
    requires pending != map[]
    ensures IsNext(pending, id)
  {
    NextExists(pending);
    var id :| IsNext(pending, id);
    id
  }

  /** The earliest pending event is due: the clock stands at it and it is pending no more. */
  ghost function Taken(v: View): View
    requires v.pending != map[]
  {
    var id := NextID(v.pending);
    View(v.pending[id], v.endTime, v.nextID, v.pending - {id}, v.executed + 1, v.fired + [Fired(v.pending[id], id)])
  }

  /** Then its callback acts. */
  ghost function FireNext(v: View, behave: Behaviour): View
    requires v.pending != map[]
  {
    AppliedAll(Taken(v), behave(Taken(v).fired))
  }

  /** Runs the events due by `until`, at most up to `limit` executed in all. */
  ghost function RunSpec(v: View, until: int, limit: nat, behave: Behaviour): (r: (View, Outcome))
    ensures !r.1.Refused?
    decreases limit - v.executed
  {
    if v.pending == map[] || v.pending[NextID(v.pending)] > until then (v.(now := until), Reached)
    else if v.executed >= limit then (v, LimitReached)
    else
      FireCounts(v, behave);
      RunSpec(FireNext(v, behave), until, limit, behave)
  }

  /** A run within the engine's bounds; any other changes nothing. */
  ghost function Bounded(v: View, until: int, limit: nat, behave: Behaviour): (View, Outcome) {
    if v.now <= until <= v.endTime then RunSpec(v, until, limit, behave) else (v, Refused)
  }

  lemma {:induction false} AppliedAllFrame(v: View, actions: seq<Action>)
    ensures var r := AppliedAll(v, actions);
      r.now == v.now && r.endTime == v.endTime && r.executed == v.executed && r.fired == v.fired && v.nextID <= r.nextID
    decreases |actions|
  {
    if actions != [] {
      AppliedAllFrame(Applied(v, actions[0]), actions[1..]);
    }
  }

  lemma FireCounts(v: View, behave: Behaviour)
    requires v.pending != map[]
    ensures var r := FireNext(v, behave); var id := NextID(v.pending);
      && r.executed == v.executed + 1 && r.fired == v.fired + [Fired(v.pending[id], id)]
      && r.endTime == v.endTime && r.now == v.pending[id] && v.nextID <= r.nextID
  {
    var id := NextID(v.pending);
    var fired := v.fired + [Fired(v.pending[id], id)];
    AppliedAllFrame(View(v.pending[id], v.endTime, v.nextID, v.pending - {id}, v.executed + 1, fired), behave(fired));
  }

  // ---------- What every run keeps ----------

  /** Strictly increasing by (time, number). */
  ghost predicate StrictlyOrdered(fired: seq<Fired>) {
    forall i, j :: 0 <= i < j < |fired| ==> Before(fired[i].at, fired[i].id, fired[j].at, fired[j].id)
  }

  ghost predicate Inv(v: View) {
    && v.now <= v.endTime
    && (forall id :: id in v.pending ==> id <= v.nextID && v.now <= v.pending[id] <= v.endTime)
    && StrictlyOrdered(v.fired)
    && (forall i :: 0 <= i < |v.fired| ==>
          && v.fired[i].id <= v.nextID && v.fired[i].at <= v.now
          && v.fired[i].id !in v.pending)
    && (forall i, id :: 0 <= i < |v.fired| && id in v.pending ==>
          Before(v.fired[i].at, v.fired[i].id, v.pending[id], id))
  }

  lemma AppliedInv(v: View, action: Action)
    requires Inv(v)
    ensures Inv(Applied(v, action))
  {
  }

  lemma {:induction false} AppliedAllInv(v: View, actions: seq<Action>)
    requires Inv(v)
    ensures Inv(AppliedAll(v, actions))
    decreases |actions|
  {
    if actions != [] {
      hide Inv;
      AppliedInv(v, actions[0]);
      AppliedAllInv(Applied(v, actions[0]), actions[1..]);
    }
  }

  lemma FireInv(v: View, behave: Behaviour)
    requires Inv(v) && v.pending != map[]
    ensures Inv(FireNext(v, behave))
  {
    var id := NextID(v.pending);
    var fired := v.fired + [Fired(v.pending[id], id)];
    var popped := View(v.pending[id], v.endTime, v.nextID, v.pending - {id}, v.executed + 1, fired);
    assert Inv(popped);
    AppliedAllInv(popped, behave(fired));
  }

  /** Whatever callbacks schedule or cancel, a run fires events in strictly increasing
      (time, number) order, none twice and none past the bound, and only extends the trace. */
  lemma {:induction false} RunOrdered(v: View, until: int, limit: nat, behave: Behaviour)
    requires Inv(v) && v.now <= until <= v.endTime
    ensures var (r, outcome) := RunSpec(v, until, limit, behave);
      && Inv(r) && v.fired <= r.fired && v.nextID <= r.nextID && r.endTime == v.endTime
      && (forall i :: |v.fired| <= i < |r.fired| ==> v.now <= r.fired[i].at <= until)
      && r.now <= until
      && (outcome.Reached? ==> r.now == until && forall id :: id in r.pending ==> until < r.pending[id])
    decreases limit - v.executed
  {
    if v.pending == map[] || v.pending[NextID(v.pending)] > until {
    } else if v.executed < limit {
      FireCounts(v, behave);
      FireInv(v, behave);
      RunOrdered(FireNext(v, behave), until, limit, behave);
    }
  }

  /** Fired or cancelled: the number will never be pending again. */
  ghost predicate Gone(v: View, id: nat) {
    id <= v.nextID && id !in v.pending
  }

  lemma {:induction false} AppliedAllGone(v: View, actions: seq<Action>, id: nat)
    requires Gone(v, id)
    ensures Gone(AppliedAll(v, actions), id)
    decreases |actions|
  {
    if actions != [] {
      AppliedAllGone(Applied(v, actions[0]), actions[1..], id);
    }
  }

  /** A number that was handed out and is pending no more never fires in any later run. */
  lemma {:induction false} GoneNeverFires(v: View, until: int, limit: nat, behave: Behaviour, id: nat)
    requires Gone(v, id)
    ensures var r := RunSpec(v, until, limit, behave).0;
      && Gone(r, id) && v.fired <= r.fired
      && forall i :: |v.fired| <= i < |r.fired| ==> r.fired[i].id != id
    decreases limit - v.executed
  {
    if v.pending == map[] || v.pending[NextID(v.pending)] > until {
    } else if v.executed < limit {
      FireCounts(v, behave);
      var next := NextID(v.pending);
      var fired := v.fired + [Fired(v.pending[next], next)];
      AppliedAllGone(View(v.pending[next], v.endTime, v.nextID, v.pending - {next}, v.executed + 1, fired), behave(fired), id);
      GoneNeverFires(FireNext(v, behave), until, limit, behave, id);
    }
  }

  /** A cancelled number, whoever cancels it, fires in no later run. */
  lemma CancelledNeverFires(v: View, id: nat, until: int, limit: nat, behave: Behaviour)
    requires id <= v.nextID
    ensures var c := Applied(v, Cancel(id));
      var r := RunSpec(c, until, limit, behave).0;
      && c == v.(pending := c.pending) && id !in c.pending
      && (forall other :: other != id ==> (other in c.pending <==> other in v.pending))
      && (forall other :: other in c.pending ==> c.pending[other] == v.pending[other])
      && id !in r.pending && v.fired <= r.fired
      && forall i :: |v.fired| <= i < |r.fired| ==> r.fired[i].id != id
  {
    GoneNeverFires(Applied(v, Cancel(id)), until, limit, behave, id);
  }

  lemma {:induction false} ActionsCancel(v: View, actions: seq<Action>, id: nat)
    requires id <= v.nextID && Cancel(id) in actions
    ensures Gone(AppliedAll(v, actions), id)
    decreases |actions|
  {
    if actions[0] == Cancel(id) {
      AppliedAllGone(Applied(v, actions[0]), actions[1..], id);
    } else {
      ActionsCancel(Applied(v, actions[0]), actions[1..], id);
    }
  }

  /** A callback that cancels an earlier number keeps it from firing in the rest of the run. */
  lemma CallbackCancels(v: View, id: nat, until: int, limit: nat, behave: Behaviour)
    requires v.pending != map[] && id <= v.nextID && Cancel(id) in behave(Taken(v).fired)
    ensures var after := FireNext(v, behave); var r := RunSpec(after, until, limit, behave).0;
      id !in r.pending && forall i :: |after.fired| <= i < |r.fired| ==> r.fired[i].id != id
  {
    ActionsCancel(Taken(v), behave(Taken(v).fired), id);
    GoneNeverFires(FireNext(v, behave), until, limit, behave, id);
  }

  /** What fired is gone as well: no number fires twice. */
  lemma FiredOnce(v: View, i: nat, until: int, limit: nat, behave: Behaviour)
    requires Inv(v) && i < |v.fired|
    ensures var r := RunSpec(v, until, limit, behave).0;
      forall j :: |v.fired| <= j < |r.fired| ==> r.fired[j].id != v.fired[i].id
  {
    GoneNeverFires(v, until, limit, behave, v.fired[i].id);
  }

  lemma {:induction false} ActionsKeep(v: View, actions: seq<Action>, id: nat)
    requires id in v.pending && id <= v.nextID && Cancel(id) !in actions
    ensures var r := AppliedAll(v, actions); id in r.pending && r.pending[id] == v.pending[id]
    decreases |actions|
  {
    if actions != [] {
      assert actions[0] in actions;
      ActionsKeep(Applied(v, actions[0]), actions[1..], id);
    }
  }

  /** An event that is due by the bound fires, at its own time, unless a callback cancels it. */
  lemma {:induction false} PendingFires(v: View, id: nat, until: int, limit: nat, behave: Behaviour)
    requires id in v.pending && id <= v.nextID && v.pending[id] <= until
    ensures var (r, outcome) := RunSpec(v, until, limit, behave);
      && v.fired <= r.fired
      && (outcome.Reached? && (forall i :: |v.fired| < i <= |r.fired| ==> Cancel(id) !in behave(r.fired[..i])) ==>
            Fired(v.pending[id], id) in r.fired)
    decreases limit - v.executed
  {
    var next := NextID(v.pending);
    if v.pending[next] <= until && v.executed < limit {
      FireCounts(v, behave);
      var after := FireNext(v, behave);
      var (r, outcome) := RunSpec(v, until, limit, behave);
      OnlyExtends(after, until, limit, behave);
      if next == id {
        assert after.fired[|v.fired|] == Fired(v.pending[id], id) == r.fired[|v.fired|];
      } else if Cancel(id) !in behave(Taken(v).fired) {
        ActionsKeep(Taken(v), behave(Taken(v).fired), id);
        PendingFires(after, id, until, limit, behave);
      } else {
        assert r.fired[..|v.fired| + 1] == Taken(v).fired;
      }
    }
  }

  lemma {:induction false} OnlyExtends(v: View, until: int, limit: nat, behave: Behaviour)
    ensures v.fired <= RunSpec(v, until, limit, behave).0.fired
    decreases limit - v.executed
  {
    if v.pending != map[] && v.pending[NextID(v.pending)] <= until && v.executed < limit {
      FireCounts(v, behave);
      OnlyExtends(FireNext(v, behave), until, limit, behave);
    }
  }

  // ---------- Batches ----------

  const BATCH_SIZE: nat := 4096

  function BatchLimit(executed: nat, limit: nat): nat {
    if executed < limit && limit - executed > BATCH_SIZE then executed + BATCH_SIZE else limit
  }

  /** Stopping at a smaller limit and resuming is the same run. */
  lemma {:induction false} ResumeSame(v: View, until: int, small: nat, limit: nat, behave: Behaviour)
    requires small <= limit
    ensures var (r, outcome) := RunSpec(v, until, small, behave);
      RunSpec(v, until, limit, behave) == (if outcome.Reached? then (r, Reached) else RunSpec(r, until, limit, behave))
    ensures RunSpec(v, until, small, behave).1.LimitReached? ==> RunSpec(v, until, small, behave).0.executed >= small
    decreases small - v.executed
  {
    if v.pending != map[] && v.pending[NextID(v.pending)] <= until && v.executed < small {
      FireCounts(v, behave);
      ResumeSame(FireNext(v, behave), until, small, limit, behave);
    }
  }

  /** A run advanced in batches, resumed until it reaches its bound or the real limit. */
  ghost function InBatches(v: View, until: int, limit: nat, behave: Behaviour): (View, Outcome)
    decreases limit - v.executed
  {
    var (r, outcome) := RunSpec(v, until, BatchLimit(v.executed, limit), behave);
    ResumeSame(v, until, BatchLimit(v.executed, limit), limit, behave);
    if outcome.LimitReached? && r.executed < limit then InBatches(r, until, limit, behave) else (r, outcome)
  }

  lemma OneBatch(v: View, until: int, limit: nat, behave: Behaviour)
    ensures var (r, outcome) := RunSpec(v, until, BatchLimit(v.executed, limit), behave);
      && InBatches(v, until, limit, behave) ==
        (if outcome.LimitReached? && r.executed < limit then InBatches(r, until, limit, behave) else (r, outcome))
      && (outcome.LimitReached? && r.executed < limit ==> v.executed < r.executed)
  {
    ResumeSame(v, until, BatchLimit(v.executed, limit), limit, behave);
  }

  /** Splitting a run into batches yields the same trace, clock and pending events. */
  lemma {:induction false} BatchesSame(v: View, until: int, limit: nat, behave: Behaviour)
    ensures InBatches(v, until, limit, behave) == RunSpec(v, until, limit, behave)
    decreases limit - v.executed
  {
    var small := BatchLimit(v.executed, limit);
    var (r, outcome) := RunSpec(v, until, small, behave);
    ResumeSame(v, until, small, limit, behave);
    if outcome.LimitReached? {
      if r.executed < limit {
        BatchesSame(r, until, limit, behave);
      } else {
        StoppedAtLimit(v, until, small, behave);
      }
    }
  }

  /** A run that hit its limit still has an event due. */
  lemma {:induction false} StoppedAtLimit(v: View, until: int, limit: nat, behave: Behaviour)
    ensures var (r, outcome) := RunSpec(v, until, limit, behave);
      outcome.LimitReached? ==> r.pending != map[] && r.pending[NextID(r.pending)] <= until
    decreases limit - v.executed
  {
    if v.pending != map[] && v.pending[NextID(v.pending)] <= until && v.executed < limit {
      FireCounts(v, behave);
      StoppedAtLimit(FireNext(v, behave), until, limit, behave);
    }
  }

  // ---------- The engine as the source keeps it ----------

  class Engine {
    var maxEvents: nat
    var now: int
    const endTime: int
    var nextID: nat
    const queue: Heap
    var byID: map<nat, Item>
    var executed: nat
    var fired: seq<Fired>

    /** The heap and the lookup table hold the same events. */
    ghost predicate Valid()
      reads this, queue, queue.queue
    {
      && queue.Valid()
      && (forall x :: x in queue.queue ==> x.id in byID && byID[x.id] == x)
      && (forall id :: id in byID ==> byID[id] in queue.queue && byID[id].id == id && id <= nextID)
    }

    ghost function Value(): View
      reads this
    {
      View(now, endTime, nextID, map id | id in byID :: byID[id].at, executed, fired)
    }

    constructor (endTime: int, maxEvents: nat)
      requires 0 <= endTime
      ensures Valid() && fresh(queue) && queue.queue == []
      ensures Value() == View(0, endTime, 0, map[], 0, []) && Inv(Value()) && this.maxEvents == maxEvents
    {
      this.endTime, this.maxEvents := endTime, maxEvents;
      now, nextID, byID, executed, fired := 0, 0, map[], 0, [];
      queue := new Heap();
    }

    /** Schedules at an absolute time; zero, and nothing kept, past the end. */
    method ScheduleAt(at: int) returns (id: nat)
      requires Valid() && now <= at
      modifies this, queue, queue.queue
      ensures Valid() && maxEvents == old(maxEvents)
      ensures Value() == Scheduled(old(Value()), at - old(now))
      ensures at > endTime ==> id == 0 && Value() == old(Value())
      ensures at <= endTime ==> id == old(nextID) + 1 && id !in old(Value()).pending
      ensures at <= endTime ==> Value() == old(Value()).(nextID := id, pending := old(Value()).pending[id := at])
      ensures fresh(set x | x in queue.queue && x !in old(queue.queue))
    {
      if at > endTime {
        return 0;
      }
      nextID := nextID + 1;
      var item := new Item(at, nextID, 0);
      ghost var before := queue.queue;
      assert item !in queue.Items();
      queue.Push(item);
      Joined(before, queue.queue, item);
      byID := byID[nextID := item];
      return nextID;
    }

    method ScheduleAfter(delay: nat) returns (id: nat)
      requires Valid() && now <= endTime
      modifies this, queue, queue.queue
      ensures Valid() && maxEvents == old(maxEvents)
      ensures Value() == Scheduled(old(Value()), delay)
      ensures old(now) + delay > endTime ==> id == 0 && Value() == old(Value())
      ensures old(now) + delay <= endTime ==> id == old(nextID) + 1 && id !in old(Value()).pending
      ensures old(now) + delay <= endTime ==>
                Value() == old(Value()).(nextID := id, pending := old(Value()).pending[id := old(now) + delay])
      ensures fresh(set x | x in queue.queue && x !in old(queue.queue))
    {
      if delay > endTime - now {
        return 0;
      }
      id := ScheduleAt(now + delay);
    }

    /** Takes the event out of heap and table if it is still pending, and says whether it was. */
    method Cancel(id: nat) returns (found: bool)
      requires Valid()
      modifies this, queue, queue.queue
      ensures Valid() && maxEvents == old(maxEvents)
      ensures Value() == Cancelled(old(Value()), id)
      ensures found == (id in old(Value()).pending)
      ensures id !in Value().pending && Value() == old(Value()).(pending := Value().pending)
      ensures forall other :: other in Value().pending <==> other != id && other in old(Value()).pending
      ensures forall other :: other in Value().pending ==> Value().pending[other] == old(Value()).pending[other]
      ensures forall x :: x in queue.queue ==> x in old(queue.queue)
    {
      if id !in byID {
        assert byID - {id} == byID;
        return false;
      }
      ghost var before := queue.queue;
      var item := queue.Remove(byID[id].index);
      Left(before, queue.queue, item);
      byID := byID - {id};
      return true;
    }

    /** The body of one callback. */
    method Perform(actions: seq<Action>)
      requires Valid() && now <= endTime
      modifies this, queue, queue.queue
      ensures Valid() && maxEvents == old(maxEvents)
      ensures Value() == AppliedAll(old(Value()), actions)
      ensures fresh(set x | x in queue.queue && x !in old(queue.queue))
    {
      ghost var start := Value();
      for k := 0 to |actions|
        invariant Valid() && maxEvents == old(maxEvents) && now == old(now)
        invariant AppliedAll(start, actions) == AppliedAll(Value(), actions[k..])
        invariant fresh(set x | x in queue.queue && x !in old(queue.queue))
      {
        assert actions[k..][1..] == actions[k + 1..];
        match actions[k]
        case Schedule(delay) => var _ := ScheduleAfter(delay);
        case Cancel(id) => var _ := Cancel(id);
      }
    }

    /** The heap's root is the next event, and an empty heap means nothing is pending. */
    lemma RootIsNext()
      requires Valid()
      ensures queue.queue == [] <==> Value().pending == map[]
      ensures queue.queue != [] ==> queue.queue[0].id in byID && byID[queue.queue[0].id] == queue.queue[0]
      ensures queue.queue != [] ==> NextID(Value().pending) == queue.queue[0].id
    {
      var pending := Value().pending;
      if queue.queue == [] {
        assert pending.Keys == {};
      } else {
        var root := queue.queue[0];
        assert root in queue.queue;
        assert root.id in pending;
        forall other | other in pending && other != root.id
          ensures Before(pending[root.id], root.id, pending[other], other)
        {
          RootIsLeast(queue.queue, |queue.queue|, byID[other].index);
        }
        NextUnique(pending, NextID(pending), root.id);
      }
    }

    lemma RootWithin()
      requires Valid() && Inv(Value()) && queue.queue != []
      ensures queue.queue[0].id in Value().pending && queue.queue[0].at == Value().pending[queue.queue[0].id] <= endTime
    {
      RootIsNext();
    }

    /** The earliest event leaves heap and table, and the clock moves to it. */
    method TakeNext()
      requires Valid() && Inv(Value()) && queue.queue != []
      modifies this, queue, queue.queue
      ensures Valid() && maxEvents == old(maxEvents) && now <= endTime
      ensures old(Value()).pending != map[] && Value() == Taken(old(Value()))
      ensures forall x :: x in queue.queue ==> x in old(queue.queue)
    {
      hide Inv;
      RootIsNext();
      RootWithin();
      ghost var before := queue.queue;
      ghost var start := Value();
      var item := queue.Pop();
      Left(before, queue.queue, item);
      byID, now, executed := byID - {item.id}, item.at, executed + 1;
      fired := fired + [Fired(item.at, item.id)];
      assert Value().pending == start.pending - {item.id};
    }

    method Fire(behave: Behaviour)
      requires Valid() && Inv(Value()) && queue.queue != []
      modifies this, queue, queue.queue
      ensures Valid() && maxEvents == old(maxEvents)
      ensures old(Value()).pending != map[] && Value() == FireNext(old(Value()), behave)
      ensures fresh(set x | x in queue.queue && x !in old(queue.queue))
    {
      hide Inv, AppliedAll;
      ghost var before := queue.queue;
      TakeNext();
      assert forall k :: 0 <= k < |queue.queue| ==> queue.queue[k] in before;
      Perform(behave(fired));
    }

    /** Executes every event due by `until`, inclusive; stops early only at the event limit. */
    method RunUntil(until: int, behave: Behaviour) returns (outcome: Outcome)
      requires Valid() && Inv(Value())
      modifies this, queue, queue.queue
      ensures Valid() && maxEvents == old(maxEvents)
      ensures (Value(), outcome) == Bounded(old(Value()), until, maxEvents, behave)
      ensures Inv(Value())
      ensures fresh(set x | x in queue.queue && x !in old(queue.queue))
    {
      ghost var start := Value();
      hide Inv;
      if until < now || until > endTime {
        return Refused;
      }
      while true
        invariant Valid() && Inv(Value()) && maxEvents == old(maxEvents) && now <= until
        invariant RunSpec(start, until, maxEvents, behave) == RunSpec(Value(), until, maxEvents, behave)
        invariant fresh(set x | x in queue.queue && x !in old(queue.queue))
        decreases maxEvents - executed
      {
        RootIsNext();
        if queue.queue == [] {
          break;
        }
        if queue.queue[0].at > until {
          break;
        }
        if executed >= maxEvents {
          return LimitReached;
        }
        FireCounts(Value(), behave);
        FireInv(Value(), behave);
        Fire(behave);
      }
      NowInvariant(Value(), until);
      now := until;
      return Reached;
    }

    /** One batch under a lowered event limit; not done when more events remain before `until`. */
    method AdvanceBatch(until: int, behave: Behaviour) returns (outcome: Outcome, done: bool)
      requires Valid() && Inv(Value())
      modifies this, queue, queue.queue
      ensures Valid() && maxEvents == old(maxEvents) && Inv(Value())
      ensures (Value(), outcome) == Bounded(old(Value()), until, BatchLimit(old(executed), maxEvents), behave)
      ensures done == !(outcome.LimitReached? && executed < maxEvents)
      ensures !outcome.Refused? ==> now <= until
      ensures fresh(set x | x in queue.queue && x !in old(queue.queue))
    {
      var limit := maxEvents;
      ghost var start := Value();
      hide Inv;
      if executed < limit && limit - executed > BATCH_SIZE {
        maxEvents := executed + BATCH_SIZE;
      }
      outcome := RunUntil(until, behave);
      if start.now <= until <= start.endTime {
        RunOrdered(start, until, maxEvents, behave);
      }
      maxEvents := limit;
      done := !(outcome.LimitReached? && executed < limit);
    }

    /** Advances batch by batch; the result is that of one uninterrupted run. */
    method Advance(until: int, behave: Behaviour) returns (outcome: Outcome)
      requires Valid() && Inv(Value())
      modifies this, queue, queue.queue
      ensures Valid() && maxEvents == old(maxEvents) && Inv(Value())
      ensures (Value(), outcome) == Bounded(old(Value()), until, maxEvents, behave)
    {
      hide Inv, RunSpec, InBatches, BatchLimit;
      ghost var start := Value();
      BatchesSame(start, until, maxEvents, behave);
      var done := false;
      outcome := LimitReached;
      ghost var bounded := now <= until <= endTime;
      while !done
        invariant Valid() && Inv(Value()) && maxEvents == old(maxEvents)
        invariant bounded ==> now <= until <= endTime
        invariant bounded && !done ==> InBatches(start, until, maxEvents, behave) == InBatches(Value(), until, maxEvents, behave)
        invariant bounded && done ==> InBatches(start, until, maxEvents, behave) == (Value(), outcome)
        invariant !bounded ==> Value() == start && (done ==> outcome.Refused?)
        invariant fresh(set x | x in queue.queue && x !in old(queue.queue))
        decreases !done, maxEvents - executed
      {
        OneBatch(Value(), until, maxEvents, behave);
        outcome, done := AdvanceBatch(until, behave);
      }
    }
  }

  lemma NowInvariant(v: View, until: int)
    requires Inv(v) && v.now <= until <= v.endTime
    requires v.pending == map[] || v.pending[NextID(v.pending)] > until
    ensures Inv(v.(now := until))
  {
  }

  lemma NextUnique(pending: map<nat, int>, a: nat, b: nat)
    requires IsNext(pending, a) && IsNext(pending, b)
    ensures a == b
  {
  }
}
