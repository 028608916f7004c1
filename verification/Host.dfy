/** A host: limited waiting room, first come first served, on a fixed number of cores.

    `State` is the host with the engine's clock; a `Step` is a submission, a completion
    event, the passing of virtual time, or a discard. The engine contributes what it is
    proved to guarantee: time never passes a scheduled completion, and completions fire in
    (time, number) order. `busyIntegral` and `queueIntegral` are the areas under the curves
    of occupied cores and of queue length, kept only to state what the counters mean. */
module Host {
  import opened Basics

  datatype Config = Config(cores: int, cost: int, capacity: int)

  /** The source's configuration check for an observation of `duration`. */
  predicate Validate(c: Config, duration: int) {
    && c.cores >= 1 && c.cost >= 0 && c.capacity >= 0 && duration >= 0
    && (c.cost == 0 || duration == 0 || Max(c.cores, c.capacity) <= MAX_INT64 / duration)
  }

  /** Accepted work waiting for a core; `number` counts acceptances. */
  datatype Waiting = Waiting(number: nat, queuedAt: int)

  /** Work on a core, with its completion event; unscheduled when that lies past the end. */
  datatype Running = Running(doneAt: int, event: nat, scheduled: bool)

  datatype Stats = Stats(
    offered: nat,
    accepted: nat,
    started: nat,
    processed: nat,
    dropped: nat,
    discarded: nat,
    maxQueued: nat,
    busyTime: int,
    queueWait: int,
    maxWait: int)

  datatype State = State(
    config: Config,
    createdAt: int,
    endTime: int,
    now: int,
    nextEvent: nat,
    queue: seq<Waiting>,
    active: map<nat, Running>,
    stopped: bool,
    accountedAt: int,
    stats: Stats,
    callbacks: seq<nat>,
    busyIntegral: int,
    queueIntegral: int,
    discardedWait: int)

  function Init(c: Config, now: int, endTime: int): State {
    State(c, now, endTime, now, 0, [], map[], false, now,
          Stats(0, 0, 0, 0, 0, 0, 0, 0, 0, 0), [], 0, 0, 0)
  }

  // ---------- Operations ----------

  /** The area under a constant height. */
  function Area(span: int, height: int): int {
    span * height
  }

  /** Adds the area since the last change to the counter and starts a new interval here. */
  function Accounted(s: State): State {
    s.(stats := s.stats.(busyTime := s.stats.busyTime + Area(s.now - s.accountedAt, |s.active|)), accountedAt := s.now)
  }

  function Started(s: State, w: Waiting): State {
    var a := Accounted(s);
    var fits := s.config.cost <= s.endTime - s.now;
    a.(stats := a.stats.(started := a.stats.started + 1,
                         queueWait := a.stats.queueWait + (s.now - w.queuedAt),
                         maxWait := Max(a.stats.maxWait, s.now - w.queuedAt)),
       active := a.active[w.number := Running(s.now + s.config.cost, s.nextEvent, fits)],
       nextEvent := s.nextEvent + 1)
  }

  function Submitted(s: State): (State, bool) {
    if s.stopped then (s, false) else
      var offered := s.(stats := s.stats.(offered := s.stats.offered + 1));
      var number := s.stats.accepted;
      var accepted := offered.(stats := offered.stats.(accepted := s.stats.accepted + 1));
      if s.config.cost == 0 then
        (accepted.(stats := accepted.stats.(started := s.stats.started + 1, processed := s.stats.processed + 1),
                   callbacks := s.callbacks + [number]), true)
      else if |s.active| < s.config.cores then (Started(accepted, Waiting(number, s.now)), true)
      else if |s.queue| >= s.config.capacity then
        (offered.(stats := offered.stats.(dropped := s.stats.dropped + 1)), false)
      else
        (accepted.(queue := s.queue + [Waiting(number, s.now)],
                   stats := accepted.stats.(maxQueued := Max(s.stats.maxQueued, |s.queue| + 1))), true)
  }

  /** The core is released and given to the oldest waiter before the callback runs. */
  function Completed(s: State, number: nat): State {
    if number !in s.active then s else
      var freed := Accounted(s).(active := s.active - {number});
      var counted := freed.(stats := freed.stats.(processed := s.stats.processed + 1));
      var next := if s.queue != [] then Started(counted.(queue := s.queue[1..]), s.queue[0]) else counted;
      next.(callbacks := s.callbacks + [number])
  }

  /** The longest wait seen, the oldest packet still waiting included. */
  function LongestWait(s: State): int {
    if s.queue == [] then s.stats.maxWait else Max(s.stats.maxWait, s.now - s.queue[0].queuedAt)
  }

  function Discarded(s: State): State {
    if s.stopped then s else
      var a := Accounted(s);
      a.(stats := a.stats.(maxWait := LongestWait(s), discarded := s.stats.discarded + |s.active| + |s.queue|),
         active := map[], queue := [],
         discardedWait := s.discardedWait + WaitSum(s.queue, s.now))
  }

  function StoppedHost(s: State): State {
    if s.stopped then s else Discarded(s).(stopped := true)
  }

  function WaitSum(queue: seq<Waiting>, now: int): int {
    if queue == [] then 0 else now - queue[0].queuedAt + WaitSum(queue[1..], now)
  }

  /** Virtual time passes; the two integrals grow by the current cores and queue length. */
  function Elapsed(s: State, to: int): State {
    s.(now := to,
       busyIntegral := s.busyIntegral + Area(to - s.now, |s.active|),
       queueIntegral := s.queueIntegral + Area(to - s.now, |s.queue|))
  }

  // ---------- Runs ----------

  datatype Step = Submit | Complete(number: nat) | Elapse(to: int) | Discard | Stop

  predicate Earlier(a: Running, b: Running) {
    a.doneAt < b.doneAt || (a.doneAt == b.doneAt && a.event < b.event)
  }

  /** What the engine allows. */
  predicate Enabled(s: State, step: Step) {
    match step
    case Complete(n) =>
      && n in s.active && s.active[n].scheduled && s.active[n].doneAt == s.now
      && forall m :: m in s.active && m != n && s.active[m].scheduled ==> Earlier(s.active[n], s.active[m])
    case Elapse(to) =>
      && s.now <= to <= s.endTime
      && forall m :: m in s.active && s.active[m].scheduled ==> to <= s.active[m].doneAt
    case _ => true
  }

  function Next(s: State, step: Step): State {
    if !Enabled(s, step) then s else
      match step
      case Submit => Submitted(s).0
      case Complete(n) => Completed(s, n)
      case Elapse(to) => Elapsed(s, to)
      case Discard => Discarded(s)
      case Stop => StoppedHost(s)
  }

  function Run(c: Config, start: int, endTime: int, steps: seq<Step>): State
    decreases |steps|
  {
    if steps == [] then Init(c, start, endTime)
    else Next(Run(c, start, endTime, steps[..|steps| - 1]), steps[|steps| - 1])
  }

  // ---------- The invariant ----------

  /** Everything accepted is processed, discarded, on a core or waiting. */
  ghost predicate Conserves(s: State) {
    && s.stats.accepted == s.stats.processed + s.stats.discarded + |s.active| + |s.queue|
    && s.stats.offered == s.stats.accepted + s.stats.dropped
    && |s.callbacks| == s.stats.processed
  }

  /** Waiters exist only while every core is busy, and both stay within their limits. */
  ghost predicate WorkConserving(s: State) {
    && |s.active| <= s.config.cores && |s.queue| <= s.config.capacity
    && (s.queue != [] ==> |s.active| == s.config.cores)
    && (s.config.cost == 0 ==> s.active == map[] && s.queue == [])
  }

  /** Acceptance order is preserved from the queue through the cores to the callbacks. */
  ghost predicate InOrder(accepted: nat, queue: seq<Waiting>, active: map<nat, Running>, callbacks: seq<nat>) {
    && (forall i :: 0 <= i < |queue| ==> queue[i].number < accepted)
    && (forall i, j :: 0 <= i < j < |queue| ==> queue[i].number < queue[j].number)
    && (forall n :: n in active ==> n < accepted)
    && (forall n, i :: n in active && 0 <= i < |queue| ==> n < queue[i].number)
    && (forall i :: 0 <= i < |callbacks| ==> callbacks[i] < accepted)
    && (forall i, j :: 0 <= i < j < |callbacks| ==> callbacks[i] < callbacks[j])
    && (forall i, n :: 0 <= i < |callbacks| && n in active ==> callbacks[i] < n)
    && (forall i, j :: 0 <= i < |callbacks| && 0 <= j < |queue| ==> callbacks[i] < queue[j].number)
  }

  /** Cores were taken in acceptance order, so completions fall due in that order. */
  ghost predicate DueInOrder(active: map<nat, Running>, nextEvent: nat, latest: int, endTime: int) {
    && (forall n :: n in active ==>
          && active[n].event < nextEvent && active[n].doneAt <= latest
          && active[n].scheduled == (active[n].doneAt <= endTime))
    && (forall n, m :: n in active && m in active && n < m ==> Earlier(active[n], active[m]))
  }

  /** The busy-time counter is the exact area under the occupied cores. */
  ghost predicate BusyExact(s: State) {
    && s.createdAt <= s.accountedAt <= s.now <= s.endTime
    && 0 <= s.stats.busyTime
    && s.stats.busyTime + Area(s.now - s.accountedAt, |s.active|) == s.busyIntegral
    && s.busyIntegral <= Area(s.now - s.createdAt, s.config.cores)
  }

  /** Ended, abandoned and current waits are together the exact area under the queue. */
  ghost predicate WaitExact(now: int, createdAt: int, capacity: int, queueWait: int, discardedWait: int,
                            queue: seq<Waiting>, queueIntegral: int)
  {
    && queueWait + discardedWait + WaitSum(queue, now) == queueIntegral
    && 0 <= queueWait && 0 <= discardedWait
    && (forall i :: 0 <= i < |queue| ==> createdAt <= queue[i].queuedAt <= now)
    && queueIntegral <= Area(now - createdAt, capacity)
  }

  ghost predicate Waits(s: State) {
    WaitExact(s.now, s.createdAt, s.config.capacity, s.stats.queueWait, s.discardedWait, s.queue, s.queueIntegral)
  }

  ghost predicate Inv(s: State) {
    && s.config.cores >= 1 && s.config.cost >= 0 && s.config.capacity >= 0
    && Conserves(s) && WorkConserving(s)
    && InOrder(s.stats.accepted, s.queue, s.active, s.callbacks)
    && DueInOrder(s.active, s.nextEvent, s.now + s.config.cost, s.endTime)
    && BusyExact(s) && Waits(s)
  }

  // ---------- Steps keep it ----------

  lemma {:induction false} WaitSumGrows(queue: seq<Waiting>, now: int, to: int)
    ensures WaitSum(queue, to) == WaitSum(queue, now) + Area(to - now, |queue|)
    decreases |queue|
  {
    if queue != [] {
      WaitSumGrows(queue[1..], now, to);
      assert (to - now) * |queue| == (to - now) * |queue[1..]| + (to - now);
    }
  }

  lemma {:induction false} WaitSumAppend(queue: seq<Waiting>, w: Waiting, now: int)
    ensures WaitSum(queue + [w], now) == WaitSum(queue, now) + now - w.queuedAt
    decreases |queue|
  {
    if queue == [] {
      assert [w][1..] == [];
      assert queue + [w] == [w];
    } else {
      assert (queue + [w])[1..] == queue[1..] + [w];
      WaitSumAppend(queue[1..], w, now);
    }
  }

  lemma {:induction false} WaitSumNonnegative(queue: seq<Waiting>, now: int)
    requires forall i :: 0 <= i < |queue| ==> queue[i].queuedAt <= now
    ensures WaitSum(queue, now) >= 0
    decreases |queue|
  {
    if queue != [] {
      WaitSumNonnegative(queue[1..], now);
    }
  }

  /** An area under a curve bounded by `limit` grows no faster than `limit`. */
  lemma AreaGrows(area: int, height: int, limit: int, from: int, now: int, to: int)
    requires 0 <= height <= limit && now <= to && area <= Area(now - from, limit)
    ensures area + Area(to - now, height) <= Area(to - from, limit)
  {
    assert (to - now) * height <= (to - now) * limit;
    assert limit * (to - from) == limit * (now - from) + limit * (to - now);
  }

  lemma AreaSplit(first: int, second: int, height: int)
    ensures Area(first + second, height) == Area(first, height) + Area(second, height)
  {
  }

  lemma AreaFacts(span: int, height: int)
    ensures Area(0, height) == 0
    ensures span >= 0 && height >= 0 ==> Area(span, height) >= 0
  {
  }

  lemma ElapseKeeps(s: State, to: int)
    requires Inv(s) && Enabled(s, Elapse(to))
    ensures Inv(Elapsed(s, to))
  {
    hide InOrder, Area;
    AreaSplit(s.now - s.accountedAt, to - s.now, |s.active|);
    WaitSumGrows(s.queue, s.now, to);
    AreaGrows(s.busyIntegral, |s.active|, s.config.cores, s.createdAt, s.now, to);
    AreaGrows(s.queueIntegral, |s.queue|, s.config.capacity, s.createdAt, s.now, to);
  }

  /** Accounting moves the boundary of the open interval, not the integral. */
  lemma AccountedKeeps(s: State)
    requires Inv(s)
    ensures Inv(Accounted(s)) && Accounted(s).accountedAt == s.now
  {
    hide InOrder, DueInOrder, WaitExact, Area;
    AreaFacts(s.now - s.accountedAt, |s.active|);
  }

  /** A core is free and `w` is the oldest work not yet on one. */
  ghost predicate MayStart(s: State, w: Waiting) {
    && s.config.cores >= 1 && s.config.cost > 0 && s.config.capacity >= 0 && s.accountedAt == s.now
    && s.stats.accepted == s.stats.processed + s.stats.discarded + |s.active| + |s.queue| + 1
    && s.stats.offered == s.stats.accepted + s.stats.dropped && |s.callbacks| == s.stats.processed
    && |s.active| < s.config.cores && |s.queue| <= s.config.capacity
    && (s.queue != [] ==> |s.active| + 1 == s.config.cores)
    && InOrder(s.stats.accepted, [w] + s.queue, s.active, s.callbacks)
    && DueInOrder(s.active, s.nextEvent, s.now + s.config.cost, s.endTime)
    && BusyExact(s)
    && WaitExact(s.now, s.createdAt, s.config.capacity, s.stats.queueWait, s.discardedWait, [w] + s.queue, s.queueIntegral)
  }

  lemma StartOrder(accepted: nat, queue: seq<Waiting>, active: map<nat, Running>, callbacks: seq<nat>, w: Waiting, r: Running)
    requires InOrder(accepted, [w] + queue, active, callbacks)
    ensures InOrder(accepted, queue, active[w.number := r], callbacks)
    ensures w.number !in active && forall n :: n in active ==> n < w.number
  {
    var all := [w] + queue;
    assert all[0] == w;
    assert forall i :: 0 <= i < |queue| ==> queue[i] == all[i + 1];
  }

  lemma StartDue(active: map<nat, Running>, nextEvent: nat, now: int, cost: int, endTime: int, number: nat)
    requires DueInOrder(active, nextEvent, now + cost, endTime) && forall n :: n in active ==> n < number
    ensures DueInOrder(active[number := Running(now + cost, nextEvent, cost <= endTime - now)], nextEvent + 1, now + cost, endTime)
  {
  }

  lemma StartWaits(now: int, createdAt: int, capacity: int, queueWait: int, discarded: int, queue: seq<Waiting>, area: int, w: Waiting)
    requires WaitExact(now, createdAt, capacity, queueWait, discarded, [w] + queue, area)
    ensures WaitExact(now, createdAt, capacity, queueWait + (now - w.queuedAt), discarded, queue, area)
  {
    var all := [w] + queue;
    assert all[0] == w && all[1..] == queue;
    assert forall i :: 0 <= i < |queue| ==> queue[i] == all[i + 1];
  }

  lemma StartBusy(s: State, w: Waiting)
    requires BusyExact(s) && s.accountedAt == s.now
    ensures BusyExact(Started(s, w))
  {
    AreaFacts(0, |s.active|);
    AreaFacts(0, |Started(s, w).active|);
    hide Area;
  }

  lemma StartKeeps(s: State, w: Waiting)
    requires MayStart(s, w)
    ensures Inv(Started(s, w))
  {
    hide InOrder, DueInOrder, WaitExact, BusyExact, Area;
    var r := Running(s.now + s.config.cost, s.nextEvent, s.config.cost <= s.endTime - s.now);
    StartBusy(s, w);
    StartGrows(s.active, w.number, r);
    StartOrder(s.stats.accepted, s.queue, s.active, s.callbacks, w, r);
    StartDue(s.active, s.nextEvent, s.now, s.config.cost, s.endTime, w.number);
    StartWaits(s.now, s.createdAt, s.config.capacity, s.stats.queueWait, s.discardedWait, s.queue, s.queueIntegral, w);
  }

  lemma StartGrows(active: map<nat, Running>, number: nat, r: Running)
    ensures |active[number := r]| == |active| + if number in active then 0 else 1
  {
    assert active[number := r].Keys == active.Keys + {number};
  }

  /** Accounting twice at one moment changes nothing more. */
  lemma StartAccounted(s: State, w: Waiting)
    ensures Started(Accounted(s), w) == Started(s, w)
  {
  }

  lemma AppendOrder(accepted: nat, queue: seq<Waiting>, active: map<nat, Running>, callbacks: seq<nat>, now: int)
    requires InOrder(accepted, queue, active, callbacks)
    ensures InOrder(accepted + 1, queue + [Waiting(accepted, now)], active, callbacks)
    ensures InOrder(accepted + 1, queue, active, callbacks)
  {
  }

  lemma AppendWaits(now: int, createdAt: int, capacity: int, queueWait: int, discarded: int, queue: seq<Waiting>, area: int, number: nat)
    requires WaitExact(now, createdAt, capacity, queueWait, discarded, queue, area) && createdAt <= now
    ensures WaitExact(now, createdAt, capacity, queueWait, discarded, queue + [Waiting(number, now)], area)
  {
    WaitSumAppend(queue, Waiting(number, now), now);
  }

  /** The submission is counted; nothing else has happened yet. */
  function Counted(s: State): State {
    s.(stats := s.stats.(offered := s.stats.offered + 1, accepted := s.stats.accepted + 1))
  }

  lemma SubmitStarts(s: State)
    requires Inv(s) && s.config.cost != 0 && |s.active| < s.config.cores
    ensures Inv(Started(Counted(s), Waiting(s.stats.accepted, s.now)))
  {
    hide InOrder, DueInOrder, WaitExact, BusyExact, Area, Started;
    var w := Waiting(s.stats.accepted, s.now);
    CreatedBeforeNow(s);
    AppendOrder(s.stats.accepted, s.queue, s.active, s.callbacks, s.now);
    AppendWaits(s.now, s.createdAt, s.config.capacity, s.stats.queueWait, s.discardedWait, s.queue, s.queueIntegral, s.stats.accepted);
    AccountedKeeps(s);
    assert s.queue == [] && [] + [w] == [w] + [];
    CountedBusy(s);
    StartKeeps(Accounted(Counted(s)), w);
    StartAccounted(Counted(s), w);
  }

  lemma CreatedBeforeNow(s: State)
    requires BusyExact(s)
    ensures s.createdAt <= s.now
  {
  }

  lemma CountedBusy(s: State)
    requires BusyExact(Accounted(s)) && s.createdAt <= s.now
    ensures BusyExact(Accounted(Counted(s)))
  {
  }

  lemma SubmitWaits(s: State)
    requires Inv(s) && s.config.cost != 0 && |s.active| >= s.config.cores
    ensures Inv(Submitted(s).0)
  {
    hide InOrder, DueInOrder, WaitExact, Area, Started;
    AppendOrder(s.stats.accepted, s.queue, s.active, s.callbacks, s.now);
    AppendWaits(s.now, s.createdAt, s.config.capacity, s.stats.queueWait, s.discardedWait, s.queue, s.queueIntegral, s.stats.accepted);
  }

  lemma SubmitBypasses(s: State)
    requires Inv(s) && s.config.cost == 0
    ensures Inv(Submitted(s).0)
  {
    hide InOrder, DueInOrder, WaitExact, Area, Started;
    BypassOrder(s.stats.accepted, s.callbacks);
  }

  lemma SubmitKeeps(s: State)
    requires Inv(s)
    ensures Inv(Submitted(s).0)
  {
    hide Inv, Started;
    if s.config.cost == 0 {
      SubmitBypasses(s);
    } else if |s.active| < s.config.cores {
      SubmitStarts(s);
    } else {
      SubmitWaits(s);
    }
  }

  lemma BypassOrder(accepted: nat, callbacks: seq<nat>)
    requires InOrder(accepted, [], map[], callbacks)
    ensures InOrder(accepted + 1, [], map[], callbacks + [accepted])
  {
  }

  // ---------- Completion ----------

  /** The due completion is that of the oldest work in the host. */
  lemma DueIsOldest(s: State, number: nat)
    requires Inv(s) && Enabled(s, Complete(number))
    ensures forall n :: n in s.active && n != number ==> number < n
  {
    hide InOrder, WaitExact;
    forall n | n in s.active && n != number ensures number < n {
      assert n < number ==> Earlier(s.active[n], s.active[number]);
    }
  }

  lemma CompleteOrder(accepted: nat, queue: seq<Waiting>, active: map<nat, Running>, callbacks: seq<nat>, number: nat)
    requires InOrder(accepted, queue, active, callbacks) && number in active
    requires forall n :: n in active && n != number ==> number < n
    ensures InOrder(accepted, queue, active - {number}, callbacks + [number])
  {
  }

  lemma CompleteDue(active: map<nat, Running>, nextEvent: nat, latest: int, endTime: int, number: nat)
    requires DueInOrder(active, nextEvent, latest, endTime)
    ensures DueInOrder(active - {number}, nextEvent, latest, endTime)
  {
  }

  lemma CompleteKeeps(s: State, number: nat)
    requires Inv(s) && Enabled(s, Complete(number))
    ensures Inv(Completed(s, number))
    ensures Completed(s, number).callbacks == s.callbacks + [number]
  {
    hide InOrder, DueInOrder, WaitExact, Area, Started;
    DueIsOldest(s, number);
    AccountedKeeps(s);
    CompleteOrder(s.stats.accepted, s.queue, s.active, s.callbacks, number);
    CompleteDue(s.active, s.nextEvent, s.now + s.config.cost, s.endTime, number);
    var freed := Freed(Accounted(s), number);
    FreedBusy(Accounted(s), number);
    if s.queue != [] {
      var w := s.queue[0];
      assert s.queue == [w] + s.queue[1..];
      StartKeeps(freed.(queue := s.queue[1..]), w);
    }
    CompletedFreed(s, number);
  }

  /** The core is free and the callback recorded, nothing started yet. */
  function Freed(s: State, number: nat): State {
    s.(active := s.active - {number}, callbacks := s.callbacks + [number],
       stats := s.stats.(processed := s.stats.processed + 1))
  }

  lemma CompletedFreed(s: State, number: nat)
    requires number in s.active
    ensures Completed(s, number) ==
      var freed := Freed(Accounted(s), number);
      if s.queue != [] then Started(freed.(queue := s.queue[1..]), s.queue[0]) else freed
  {
  }

  lemma FreedBusy(s: State, number: nat)
    requires BusyExact(s) && s.accountedAt == s.now && number in s.active
    ensures BusyExact(Freed(s, number)) && |s.active - {number}| == |s.active| - 1
  {
    assert (s.active - {number}).Keys == s.active.Keys - {number};
  }

  lemma DiscardKeeps(s: State)
    requires Inv(s)
    ensures Inv(Discarded(s)) && Inv(StoppedHost(s))
  {
    hide DueInOrder, InOrder, WaitExact, Area, BusyExact;
    AccountedKeeps(s);
    DiscardWaits(s.now, s.createdAt, s.config.capacity, s.stats.queueWait, s.discardedWait, s.queue, s.queueIntegral);
    DiscardOrder(s.stats.accepted, s.queue, s.active, s.callbacks);
    DiscardBusy(s);
    EmptyDue(s.nextEvent, s.now + s.config.cost, s.endTime);
  }

  lemma DiscardWaits(now: int, createdAt: int, capacity: int, queueWait: int, discarded: int, queue: seq<Waiting>, area: int)
    requires WaitExact(now, createdAt, capacity, queueWait, discarded, queue, area)
    ensures WaitExact(now, createdAt, capacity, queueWait, discarded + WaitSum(queue, now), [], area)
  {
    WaitSumNonnegative(queue, now);
  }

  lemma DiscardBusy(s: State)
    requires Inv(s)
    ensures BusyExact(Discarded(s)) && BusyExact(StoppedHost(s))
  {
    AccountedKeeps(s);
    hide InOrder, DueInOrder, WaitExact, Area;
    AreaFacts(0, |s.active|);
    AreaFacts(0, 0);
  }

  lemma DiscardOrder(accepted: nat, queue: seq<Waiting>, active: map<nat, Running>, callbacks: seq<nat>)
    requires InOrder(accepted, queue, active, callbacks)
    ensures InOrder(accepted, [], map[], callbacks)
  {
  }

  lemma WaitSumBound(s: State)
    requires Waits(s)
    ensures WaitSum(s.queue, s.now) >= 0
  {
    WaitSumNonnegative(s.queue, s.now);
  }

  lemma EmptyDue(nextEvent: nat, latest: int, endTime: int)
    ensures DueInOrder(map[], nextEvent, latest, endTime)
  {
  }

  // ---------- Every run ----------

  lemma InitInv(c: Config, now: int, endTime: int)
    requires Validate(c, endTime - now)
    ensures Inv(Init(c, now, endTime))
  {
  }

  lemma {:induction false} RunInv(c: Config, start: int, endTime: int, steps: seq<Step>)
    requires Validate(c, endTime - start)
    ensures Inv(Run(c, start, endTime, steps))
    ensures var s := Run(c, start, endTime, steps); s.config == c && s.createdAt == start && s.endTime == endTime
    decreases |steps|
  {
    if steps != [] {
      var before := Run(c, start, endTime, steps[..|steps| - 1]);
      RunInv(c, start, endTime, steps[..|steps| - 1]);
      NextKeeps(before, steps[|steps| - 1]);
    }
  }

  lemma NextKeeps(s: State, step: Step)
    requires Inv(s)
    ensures Inv(Next(s, step))
    ensures var t := Next(s, step); t.config == s.config && t.createdAt == s.createdAt && t.endTime == s.endTime
  {
    hide Inv;
    if Enabled(s, step) {
      match step
      case Submit => SubmitKeeps(s);
      case Complete(n) => CompleteKeeps(s, n);
      case Elapse(to) => ElapseKeeps(s, to);
      case Discard => DiscardKeeps(s);
      case Stop => DiscardKeeps(s);
    }
  }

  // ---------- The main results ----------

  /** A work-conserving FIFO multi-server: waiters only while all cores are busy, callbacks in
      acceptance order, and nothing accepted is ever lost or served twice. */
  lemma FIFOMultiServer(c: Config, start: int, endTime: int, steps: seq<Step>)
    requires Validate(c, endTime - start)
    ensures var s := Run(c, start, endTime, steps);
      && (s.queue != [] ==> |s.active| == c.cores) && |s.active| <= c.cores && |s.queue| <= c.capacity
      && s.stats.accepted == s.stats.processed + s.stats.discarded + |s.active| + |s.queue|
      && |s.callbacks| == s.stats.processed
      && (forall i, j :: 0 <= i < j < |s.callbacks| ==> s.callbacks[i] < s.callbacks[j])
  {
    RunInv(c, start, endTime, steps);
    hide Run, DueInOrder;
  }

  /** Busy time and waiting time are exact integrals, and the configuration check keeps both,
      and every product formed on the way, within 63 bits. */
  lemma CountersNeverOverflow(c: Config, start: int, endTime: int, steps: seq<Step>)
    requires Validate(c, endTime - start)
    ensures var s := Run(c, start, endTime, steps);
      && Accounted(s).stats.busyTime == s.busyIntegral <= MAX_INT64
      && Area(s.now - s.accountedAt, |s.active|) <= MAX_INT64
      && s.stats.queueWait + s.discardedWait + WaitSum(s.queue, s.now) == s.queueIntegral <= MAX_INT64
      && s.stats.queueWait <= MAX_INT64
  {
    hide Run, Next, InOrder, DueInOrder, Submitted, Completed;
    RunInv(c, start, endTime, steps);
    var s := Run(c, start, endTime, steps);
    if c.cost == 0 {
      NoCostNoTime(c, start, endTime, steps);
      AreaFacts(s.now - s.accountedAt, 0);
    } else {
      hide *;
      AreaFits(c.cores, s.now - start, endTime - start);
      AreaFits(c.capacity, s.now - start, endTime - start);
      CountersFit(s);
    }
  }

  lemma CountersFit(s: State)
    requires Inv(s)
    requires Area(s.now - s.createdAt, s.config.cores) <= MAX_INT64 && Area(s.now - s.createdAt, s.config.capacity) <= MAX_INT64
    ensures Accounted(s).stats.busyTime == s.busyIntegral <= MAX_INT64
    ensures Area(s.now - s.accountedAt, |s.active|) <= MAX_INT64
    ensures s.stats.queueWait + s.discardedWait + WaitSum(s.queue, s.now) == s.queueIntegral <= MAX_INT64
    ensures s.stats.queueWait <= MAX_INT64
  {
    hide InOrder, DueInOrder, Area;
    WaitSumBound(s);
  }

  /** Without a processing cost cores and queue stay unused and both counters stay zero. */
  lemma {:induction false} NoCostNoTime(c: Config, start: int, endTime: int, steps: seq<Step>)
    requires Validate(c, endTime - start) && c.cost == 0
    ensures var s := Run(c, start, endTime, steps);
      s.active == map[] && s.queue == [] && s.busyIntegral == 0 && s.queueIntegral == 0 && s.stats.busyTime == 0
      && s.stats.queueWait == 0 && s.discardedWait == 0
    decreases |steps|
  {
    if steps != [] {
      NoCostNoTime(c, start, endTime, steps[..|steps| - 1]);
      RunInv(c, start, endTime, steps[..|steps| - 1]);
    }
  }

  lemma AreaFits(height: int, elapsed: int, duration: int)
    requires 0 <= elapsed <= duration && 0 <= height
    requires duration == 0 || height <= MAX_INT64 / duration
    ensures Area(elapsed, height) <= MAX_INT64
  {
    if duration > 0 {
      assert height * elapsed <= height * duration;
      assert height * duration <= (MAX_INT64 / duration) * duration;
    }
  }
}
