/** What every run of the dispatcher keeps, and what follows from it. */
module EgressSafety {
  import opened Basics
  import opened Serialization
  import opened Egress

  // ---------- The invariant ----------

  ghost predicate Shape(c: Config, outputs: seq<Output>) {
    ValidConfig(c) && |outputs| == |c.capacity|
  }

  /** Admission times never go back, and each cost is the exact duration at the shared rate. */
  ghost predicate Admissions(c: Config, now: int, admitted: seq<Admission>) {
    && c.rate > 0
    && (forall i :: 0 <= i < |admitted| ==> admitted[i].at <= now && admitted[i].cost == Duration(admitted[i].size, c.rate))
    && (forall i, j :: 0 <= i <= j < |admitted| ==> admitted[i].at <= admitted[j].at)
  }

  /** A packet of output `o` is what was admitted under its number. */
  ghost predicate Matches(p: Packet, o: nat, admitted: seq<Admission>) {
    1 <= p.sequence <= |admitted| && admitted[p.sequence - 1] == Admission(o, p.size, p.cost, p.queuedAt, p.marked)
  }

  /** Each queue holds its own admissions, in order. */
  ghost predicate Queues(outputs: seq<Output>, admitted: seq<Admission>) {
    && (forall o: nat, k :: o < |outputs| && 0 <= k < |outputs[o].queue| ==> Matches(outputs[o].queue[k], o, admitted))
    && (forall o, j, k :: 0 <= o < |outputs| && 0 <= j < k < |outputs[o].queue| ==>
          outputs[o].queue[j].sequence < outputs[o].queue[k].sequence)
  }

  ghost predicate Fits(outputs: seq<Output>, capacity: seq<nat>) {
    && |outputs| == |capacity|
    && forall o :: 0 <= o < |outputs| ==> |outputs[o].queue| <= capacity[o]
  }

  /** Each start is an admission, and took the smallest number among the ready heads. */
  ghost predicate OldestFirst(admitted: seq<Admission>, starts: seq<Start>) {
    forall i :: 0 <= i < |starts| ==>
      && 1 <= starts[i].sequence <= |admitted|
      && starts[i].sequence in starts[i].heads
      && forall other :: other in starts[i].heads ==> starts[i].sequence <= other
  }

  /** Per output, starts follow admission order, and what waits was admitted after what started. */
  ghost predicate PerOutput(outputs: seq<Output>, admitted: seq<Admission>, starts: seq<Start>)
    requires OldestFirst(admitted, starts)
  {
    && (forall i, j :: 0 <= i < j < |starts| && admitted[starts[i].sequence - 1].output == admitted[starts[j].sequence - 1].output ==>
          starts[i].sequence < starts[j].sequence)
    && (forall i, o, k :: 0 <= i < |starts| && 0 <= o < |outputs| && 0 <= k < |outputs[o].queue| ==>
          admitted[starts[i].sequence - 1].output == o ==>
          starts[i].sequence < outputs[o].queue[k].sequence)
  }

  /** The grant of the last start; without idle credit, whenever that start happened. */
  ghost predicate Granted(c: Config, b: Budget, admitted: seq<Admission>, starts: seq<Start>, now: int)
    requires OldestFirst(admitted, starts)
  {
    && b.nextGrantAt <= c.endTime
    && (starts == [] ==> b == Budget(0, false))
    && (starts != [] ==>
          var last := starts[|starts| - 1];
          && last.at <= now
          && var at := last.at + admitted[last.sequence - 1].cost;
             b == if at > c.endTime then Budget(c.endTime, true) else Budget(at, false))
  }

  /** Each start waits out the cost of the one before. */
  ghost predicate Spaced(admitted: seq<Admission>, starts: seq<Start>)
    requires OldestFirst(admitted, starts)
  {
    forall i :: 0 < i < |starts| ==> starts[i - 1].at + admitted[starts[i - 1].sequence - 1].cost <= starts[i].at
  }

  /** Everything offered is accepted or dropped; everything accepted has started or waits. */
  ghost predicate Conserved(s: State) {
    && s.stats.offered == s.stats.accepted + s.stats.dropped
    && s.stats.accepted == |s.admitted|
    && s.stats.forwarded == |s.starts|
    && s.stats.queued == QueuedSum(s.outputs)
    && s.stats.accepted == s.stats.forwarded + s.stats.queued
  }

  /** What also holds between two starts of one dispatch. */
  ghost predicate Core(s: State) {
    && Shape(s.c, s.outputs) && 0 <= s.now <= s.c.endTime
    && Admissions(s.c, s.now, s.admitted)
    && Queues(s.outputs, s.admitted)
    && OldestFirst(s.admitted, s.starts)
    && PerOutput(s.outputs, s.admitted, s.starts)
    && Granted(s.c, s.budget, s.admitted, s.starts, s.now)
    && Spaced(s.admitted, s.starts)
    && Conserved(s)
  }

  /** One wake-up, at the grant and not yet past, exactly when a ready head awaits one. */
  ghost predicate Wakes(w: Wake, anyReady: bool, b: Budget, now: int) {
    && w.event <= w.nextEvent
    && (if anyReady && !b.beyondEnd then
          w.event != 0 && w.at == b.nextGrantAt && now <= w.at && w.pending == map[w.event := w.at]
        else w.event == 0 && w.pending == map[])
  }

  /** Closed intervals and the open one together are `blocked`, the area kept by the steps. */
  ghost predicate Waited(w: Wait, anyReady: bool, b: Budget, now: int, blocked: int) {
    && w.startedAt <= now
    && w.waiting == (anyReady && (b.beyondEnd || w.startedAt < b.nextGrantAt))
    && w.total + CurrentWait(w, b, now) == blocked
  }

  ghost predicate Inv(s: State) {
    && Core(s) && Fits(s.outputs, s.c.capacity)
    && Wakes(s.wake, AnyReady(s.outputs), s.budget, s.now)
    && Waited(s.wait, AnyReady(s.outputs), s.budget, s.now, s.blocked)
  }

  // ---------- One start ----------

  /** Age and admission number order ready heads alike. */
  lemma OldestHasLeastNumber(c: Config, now: int, outputs: seq<Output>, admitted: seq<Admission>, o: nat)
    requires Admissions(c, now, admitted) && Queues(outputs, admitted) && IsOldest(outputs, o)
    ensures outputs[o].queue[0].sequence in Heads(outputs)
    ensures forall other :: other in Heads(outputs) ==> outputs[o].queue[0].sequence <= other
  {
    var p := outputs[o].queue[0];
    assert Matches(p, o, admitted);
    forall other | other in Heads(outputs) ensures p.sequence <= other {
      var q: nat :| q < |outputs| && Ready(outputs[q]) && outputs[q].queue[0].sequence == other;
      assert Matches(outputs[q].queue[0], q, admitted);
    }
  }

  /** Two ready outputs cannot both be oldest: their heads bear different numbers. */
  lemma OldestUnique(c: Config, now: int, outputs: seq<Output>, admitted: seq<Admission>, o: nat, p: nat)
    requires Admissions(c, now, admitted) && Queues(outputs, admitted) && IsOldest(outputs, o) && IsOldest(outputs, p)
    ensures o == p
  {
    assert Matches(outputs[o].queue[0], o, admitted) && Matches(outputs[p].queue[0], p, admitted);
  }

  lemma StartQueues(outputs: seq<Output>, admitted: seq<Admission>, o: nat, out: Output)
    requires Queues(outputs, admitted) && o < |outputs| && outputs[o].queue != [] && out.queue == outputs[o].queue[1..]
    ensures Queues(outputs[o := out], admitted)
  {
  }

  lemma StartPerOutput(outputs: seq<Output>, admitted: seq<Admission>, starts: seq<Start>, o: nat, out: Output, start: Start)
    requires Queues(outputs, admitted) && o < |outputs| && outputs[o].queue != [] && out.queue == outputs[o].queue[1..]
    requires OldestFirst(admitted, starts) && PerOutput(outputs, admitted, starts)
    requires start.sequence == outputs[o].queue[0].sequence && OldestFirst(admitted, starts + [start])
    ensures PerOutput(outputs[o := out], admitted, starts + [start])
  {
    var all := starts + [start];
    var n := |starts|;
    assert Matches(outputs[o].queue[0], o, admitted);
    forall i, j | 0 <= i < j < |all| && admitted[all[i].sequence - 1].output == admitted[all[j].sequence - 1].output
      ensures all[i].sequence < all[j].sequence
    {
      if j == n {
        assert all[i] == starts[i];
      }
    }
    var after := outputs[o := out];
    forall i, q, k | 0 <= i < |all| && 0 <= q < |after| && 0 <= k < |after[q].queue| && admitted[all[i].sequence - 1].output == q
      ensures all[i].sequence < after[q].queue[k].sequence
    {
      if q == o {
        assert out.queue[k] == outputs[o].queue[k + 1];
      }
    }
  }

  lemma StartGrants(c: Config, b: Budget, admitted: seq<Admission>, starts: seq<Start>, now: int, start: Start)
    requires Granted.requires(c, b, admitted, starts, now) && Granted(c, b, admitted, starts, now) && Spaced(admitted, starts)
    requires OldestFirst(admitted, starts + [start]) && 1 <= start.sequence <= |admitted|
    requires start.at == now <= c.endTime && !Unavailable(b, now)
    ensures Granted(c, Reserved(c, now, admitted[start.sequence - 1].cost), admitted, starts + [start], now)
    ensures Spaced(admitted, starts + [start])
  {
    var all := starts + [start];
    forall i | 0 < i < |all| ensures all[i - 1].at + admitted[all[i - 1].sequence - 1].cost <= all[i].at {
      if i == |starts| {
        assert all[i - 1] == starts[i - 1];
      }
    }
  }

  lemma StartedKeeps(s: State, o: nat)
    requires Core(s) && IsOldest(s.outputs, o) && !Unavailable(s.budget, s.now)
    ensures Core(Started(s, o))
    ensures QueuedSum(Started(s, o).outputs) == QueuedSum(s.outputs) - 1
    ensures Fits(s.outputs, s.c.capacity) ==> Fits(Started(s, o).outputs, s.c.capacity)
  {
    var t := Started(s, o);
    var start := t.starts[|s.starts|];
    OldestHasLeastNumber(s.c, s.now, s.outputs, s.admitted, o);
    assert Matches(s.outputs[o].queue[0], o, s.admitted);
    StartQueues(s.outputs, s.admitted, o, t.outputs[o]);
    StartOldest(s.admitted, s.starts, start);
    StartPerOutput(s.outputs, s.admitted, s.starts, o, t.outputs[o], start);
    StartGrants(s.c, s.budget, s.admitted, s.starts, s.now, start);
    QueuedSumUpdate(s.outputs, o, t.outputs[o]);
    hide Queues, OldestFirst, PerOutput, Granted, Spaced, Admissions, QueuedSum, Heads, IsOldest, Matches, Duration;
  }

  lemma StartOldest(admitted: seq<Admission>, starts: seq<Start>, start: Start)
    requires OldestFirst(admitted, starts) && 1 <= start.sequence <= |admitted| && start.sequence in start.heads
    requires forall other :: other in start.heads ==> start.sequence <= other
    ensures OldestFirst(admitted, starts + [start])
  {
  }

  /** Draining leaves nothing ready, or the budget taken; only starts happen. */
  lemma {:induction false} DrainedKeeps(s: State)
    requires Core(s)
    ensures var r := Drained(s);
      && Core(r) && !(AnyReady(r.outputs) && !Unavailable(r.budget, r.now))
      && r.c == s.c && r.now == s.now && r.wake == s.wake && r.wait == s.wait && r.blocked == s.blocked && r.admitted == s.admitted
      && s.starts <= r.starts
      && (Fits(s.outputs, s.c.capacity) ==> Fits(r.outputs, s.c.capacity))
    decreases QueuedSum(s.outputs)
  {
    hide Core, Fits, AnyReady, QueuedSum, Heads, IsOldest;
    CoreShape(s);
    if AnyReady(s.outputs) && !Unavailable(s.budget, s.now) {
      var o := Oldest(s.outputs);
      OldestReady(s.outputs, o);
      StartedKeeps(s, o);
      DrainedKeeps(Started(s, o));
    }
  }

  lemma CoreShape(s: State)
    requires Core(s)
    ensures ValidConfig(s.c) && |s.outputs| == |s.c.capacity| == |s.c.bandwidth|
  {
  }

  lemma OldestReady(outputs: seq<Output>, o: nat)
    requires IsOldest(outputs, o)
    ensures o < |outputs| && Ready(outputs[o])
  {
  }

  // ---------- Accounting and the wake-up ----------

  /** Closing the open interval leaves the accounted total exact. */
  lemma AccountCloses(s: State, blocked: int)
    requires s.wait.startedAt <= s.now && s.wait.total + CurrentWait(s.wait, s.budget, s.now) == blocked
    ensures var a := Accounted(s);
      a.wait.total == blocked && a.wait.startedAt == s.now && a.wait.waiting == Blocked(s)
      && forall b: Budget :: CurrentWait(a.wait, b, s.now) == 0
  {
  }

  /** After a dispatch the wake-up and the wait match the outputs and the budget. */
  lemma DispatchedKeeps(s: State)
    requires Core(s)
    requires s.wait.startedAt <= s.now && s.wait.total + CurrentWait(s.wait, s.budget, s.now) == s.blocked
    requires s.wake.event <= s.wake.nextEvent
    requires s.wake.pending == if s.wake.event == 0 then map[] else map[s.wake.event := s.wake.at]
    requires Fits(Drained(Accounted(s)).outputs, s.c.capacity)
    ensures Inv(Dispatched(s)) && Dispatched(s).c == s.c
  {
    AccountCloses(s, s.blocked);
    var a := Accounted(s);
    CoreIgnoresWait(s, a);
    DrainedKeeps(a);
    var d := Drained(a);
    AccountCloses(d, s.blocked);
    var f := WakeScheduled(Accounted(d));
    CoreIgnoresWait(d, f);
    assert d.budget.nextGrantAt <= d.c.endTime;
    hide Core, Drained, Fits, AnyReady;
    RescheduledWakes(d.wake, AnyReady(d.outputs), d.budget, d.now);
    hide CurrentWait;
  }

  lemma RescheduledWakes(w: Wake, anyReady: bool, b: Budget, now: int)
    requires w.event <= w.nextEvent && w.pending == if w.event == 0 then map[] else map[w.event := w.at]
    requires anyReady ==> Unavailable(b, now)
    ensures Wakes(Rescheduled(w, anyReady && Unavailable(b, now) && !b.beyondEnd, b.nextGrantAt), anyReady, b, now)
  {
  }

  // ---------- Steps ----------

  lemma AppendQueues(outputs: seq<Output>, admitted: seq<Admission>, o: nat, p: Packet)
    requires Queues(outputs, admitted) && o < |outputs| && p.sequence == |admitted| + 1
    ensures var more := admitted + [Admission(o, p.size, p.cost, p.queuedAt, p.marked)];
      Queues(outputs[o := outputs[o].(queue := outputs[o].queue + [p])], more)
  {
    var more := admitted + [Admission(o, p.size, p.cost, p.queuedAt, p.marked)];
    var after := outputs[o := outputs[o].(queue := outputs[o].queue + [p])];
    forall q: nat, k | q < |after| && 0 <= k < |after[q].queue| ensures Matches(after[q].queue[k], q, more) {
      if q != o || k < |outputs[o].queue| {
        assert Matches(outputs[q].queue[k], q, admitted);
      }
    }
    forall q: nat, j, k | q < |after| && 0 <= j < k < |after[q].queue|
      ensures after[q].queue[j].sequence < after[q].queue[k].sequence
    {
      if q == o && k == |outputs[o].queue| {
        assert Matches(outputs[o].queue[j], o, admitted);
      }
    }
  }

  lemma AppendPerOutput(outputs: seq<Output>, admitted: seq<Admission>, starts: seq<Start>, o: nat, p: Packet, a: Admission)
    requires OldestFirst(admitted, starts) && PerOutput(outputs, admitted, starts) && o < |outputs| && p.sequence == |admitted| + 1
    ensures OldestFirst(admitted + [a], starts)
    ensures PerOutput(outputs[o := outputs[o].(queue := outputs[o].queue + [p])], admitted + [a], starts)
  {
  }

  lemma AppendGrants(c: Config, b: Budget, admitted: seq<Admission>, starts: seq<Start>, now: int, a: Admission)
    requires OldestFirst(admitted, starts) && Granted(c, b, admitted, starts, now) && Spaced(admitted, starts)
    ensures OldestFirst(admitted + [a], starts)
    ensures Granted(c, b, admitted + [a], starts, now) && Spaced(admitted + [a], starts)
  {
  }

  lemma AppendAdmissions(c: Config, now: int, admitted: seq<Admission>, a: Admission)
    requires Admissions(c, now, admitted) && a.at == now && a.cost == Duration(a.size, c.rate)
    ensures Admissions(c, now, admitted + [a])
  {
  }

  lemma AppendedCore(s: State, o: nat, size: nat, ecn: ECNState, signalled: bool)
    requires Core(s) && o < |s.outputs|
    ensures Core(Appended(s, o, size, ecn, signalled))
  {
    var t := Appended(s, o, size, ecn, signalled);
    var a := t.admitted[|s.admitted|];
    var p := t.outputs[o].queue[|s.outputs[o].queue|];
    hide Queues, OldestFirst, PerOutput, Granted, Spaced, Admissions, QueuedSum, Duration;
    AppendAdmissions(s.c, s.now, s.admitted, a);
    AppendQueues(s.outputs, s.admitted, o, p);
    AppendPerOutput(s.outputs, s.admitted, s.starts, o, p, a);
    AppendGrants(s.c, s.budget, s.admitted, s.starts, s.now, a);
    QueuedSumUpdate(s.outputs, o, t.outputs[o]);
  }

  /** An immediate start never occupies a waiting slot, not even of capacity zero. */
  lemma ImmediateFits(s: State, o: nat, size: nat, ecn: ECNState)
    requires Core(s) && Fits(s.outputs, s.c.capacity) && o < |s.outputs| && CanStartNow(s, o)
    ensures var a := Accounted(Appended(s, o, size, ecn, false)); Fits(Drained(a).outputs, s.c.capacity)
  {
    AppendedCore(s, o, size, ecn, false);
    var t := Appended(s, o, size, ecn, false);
    var a := Accounted(t);
    CoreIgnoresWait(t, a);
    assert Ready(a.outputs[o]);
    var first := Oldest(a.outputs);
    OnlyReady(s.outputs, a.outputs, o, first);
    StartedKeeps(a, o);
    var b := Started(a, o);
    assert Fits(b.outputs, s.c.capacity) by {
      hide Core, Drained, QueuedSum;
    }
    DrainedKeeps(b);
    assert Drained(a) == Drained(b) by {
      hide Core, QueuedSum, Fits;
    }
  }

  lemma OnlyReady(outputs: seq<Output>, after: seq<Output>, o: nat, p: nat)
    requires !AnyReady(outputs) && o < |outputs| == |after| && IsOldest(after, p)
    requires forall q :: 0 <= q < |outputs| && q != o ==> after[q] == outputs[q]
    ensures p == o
  {
  }

  lemma CoreIgnoresWait(s: State, t: State)
    requires Core(s) && t == s.(wait := t.wait, wake := t.wake)
    ensures Core(t)
  {
    hide Admissions, Queues, OldestFirst, PerOutput, Granted, Spaced, QueuedSum;
  }

  lemma TransmitKeeps(s: State, o: nat, size: nat, ecn: ECNState, congested: bool)
    requires Inv(s) && o < |s.outputs|
    ensures Inv(Transmitted(s, o, size, ecn, congested)) && Transmitted(s, o, size, ecn, congested).c == s.c
  {
    if Accepts(s, o, ecn, congested) {
      var signalled := Signalled(s, o, congested);
      var t := Appended(s, o, size, ecn, signalled);
      AppendedCore(s, o, size, ecn, signalled);
      if CanStartNow(s, o) {
        ImmediateFits(s, o, size, ecn);
      } else {
        assert Fits(t.outputs, s.c.capacity);
        CoreIgnoresWait(t, Accounted(t));
        DrainedKeeps(Accounted(t));
      }
      hide Core, Fits, AnyReady, Drained;
      DispatchedKeeps(t);
    } else {
      hide Admissions, Queues, OldestFirst, PerOutput, Granted, Spaced, QueuedSum, Fits;
    }
  }

  lemma FreedQueues(outputs: seq<Output>, admitted: seq<Admission>, starts: seq<Start>, capacity: seq<nat>, o: nat)
    requires o < |outputs| && Queues(outputs, admitted) && OldestFirst(admitted, starts) && PerOutput(outputs, admitted, starts)
    ensures var after := outputs[o := outputs[o].(busy := false)];
      Queues(after, admitted) && PerOutput(after, admitted, starts) && (Fits(outputs, capacity) ==> Fits(after, capacity))
  {
  }

  lemma FreedCore(s: State, o: nat)
    requires Core(s) && o < |s.outputs|
    ensures Core(Freed(s, o)) && (Fits(s.outputs, s.c.capacity) ==> Fits(Freed(s, o).outputs, s.c.capacity))
  {
    QueuedSumUpdate(s.outputs, o, s.outputs[o].(busy := false));
    FreedQueues(s.outputs, s.admitted, s.starts, s.c.capacity, o);
    hide QueuedSum, Admissions, Granted, Spaced, OldestFirst, Queues, PerOutput, Fits;
  }

  lemma FreeKeeps(s: State, o: nat)
    requires Inv(s) && o < |s.outputs|
    ensures Inv(Dispatched(Freed(s, o))) && Dispatched(Freed(s, o)).c == s.c
  {
    var t := Freed(s, o);
    FreedCore(s, o);
    CoreIgnoresWait(t, Accounted(t));
    DrainedKeeps(Accounted(t));
    hide Core, Fits, AnyReady, Drained;
    DispatchedKeeps(t);
  }

  lemma WakeKeeps(s: State, event: nat)
    requires Inv(s) && event in s.wake.pending
    ensures Inv(Dispatched(Woken(s, event))) && Dispatched(Woken(s, event)).c == s.c
  {
    var t := Woken(s, event);
    CoreIgnoresWait(s, t);
    CoreIgnoresWait(t, Accounted(t));
    DrainedKeeps(Accounted(t));
    hide Core, Fits, AnyReady, Drained;
    assert t.wake.pending == map[];
    DispatchedKeeps(t);
  }

  lemma ElapseKeeps(s: State, to: int)
    requires Inv(s) && Enabled(s, Elapse(to))
    ensures Inv(Elapsed(s, to))
  {
    var t := Elapsed(s, to);
    assert Core(t) by {
      hide Queues, OldestFirst, PerOutput, Spaced, QueuedSum;
    }
    hide Core, Fits, AnyReady;
    if s.wake.event in s.wake.pending {
      assert to <= s.wake.at;
    }
  }

  // ---------- Every run ----------

  ghost function Run(c: Config, steps: seq<Step>): State
    decreases |steps|
  {
    if steps == [] then Init(c) else Next(Run(c, steps[..|steps| - 1]), steps[|steps| - 1])
  }

  lemma StepKeeps(s: State, step: Step)
    requires Inv(s)
    ensures Inv(Next(s, step)) && Next(s, step).c == s.c
  {
    assert ValidConfig(s.c) && |s.outputs| == |s.c.capacity|;
    hide Core, Fits, Wakes, Waited, Dispatched, Transmitted;
    if Enabled(s, step) {
      match step
      case Transmit(o, size, ecn, congested) => TransmitKeeps(s, o, size, ecn, congested);
      case LinkFree(o) => FreeKeeps(s, o);
      case WakeUp(event) => WakeKeeps(s, event);
      case Elapse(to) => ElapseKeeps(s, to);
    }
  }

  lemma InitInv(c: Config)
    requires ValidConfig(c)
    ensures Inv(Init(c))
  {
    EmptySum(Init(c).outputs);
  }

  lemma {:induction false} EmptySum(outputs: seq<Output>)
    requires forall o :: 0 <= o < |outputs| ==> outputs[o].queue == []
    ensures QueuedSum(outputs) == 0
    decreases |outputs|
  {
    if outputs != [] {
      EmptySum(outputs[1..]);
    }
  }

  lemma {:induction false} RunInv(c: Config, steps: seq<Step>)
    requires ValidConfig(c)
    ensures Inv(Run(c, steps)) && Run(c, steps).c == c
    decreases |steps|
  {
    if steps == [] {
      InitInv(c);
    } else {
      hide Inv, Next, Init;
      RunInv(c, steps[..|steps| - 1]);
      StepKeeps(Run(c, steps[..|steps| - 1]), steps[|steps| - 1]);
    }
  }

  // ---------- The main results ----------

  /** Each start took the oldest admission whose head was ready; every output is served first in,
      first out and within its waiting capacity; nothing accepted is lost or started twice. */
  lemma OldestReadyFirst(c: Config, steps: seq<Step>)
    requires ValidConfig(c)
    ensures var s := Run(c, steps);
      && Fits(s.outputs, c.capacity)
      && OldestFirst(s.admitted, s.starts) && PerOutput(s.outputs, s.admitted, s.starts)
      && Queues(s.outputs, s.admitted)
      && |s.admitted| == |s.starts| + QueuedSum(s.outputs)
      && s.stats.offered == |s.admitted| + s.stats.dropped
  {
    RunInv(c, steps);
    hide Run, OldestFirst, PerOutput, Queues, Granted, Spaced, Admissions;
  }

  /** Exactly one wake-up exists, at the grant, when a ready head awaits a grant within the
      horizon, and none otherwise. */
  lemma OneWakeWhenAwaited(c: Config, steps: seq<Step>)
    requires ValidConfig(c)
    ensures var s := Run(c, steps);
      if AnyReady(s.outputs) && !s.budget.beyondEnd then
        s.wake.pending == map[s.wake.event := s.budget.nextGrantAt] && s.now <= s.budget.nextGrantAt <= c.endTime
      else s.wake.pending == map[]
  {
    RunInv(c, steps);
    hide Run, OldestFirst, PerOutput, Queues, Spaced, Admissions, Conserved;
  }

  /** A ready head sees a free budget exactly in the instant its wake-up is due, and no virtual
      time passes while one does. */
  lemma NoReadyHeadWaitsOnFreeBudget(c: Config, steps: seq<Step>, to: int)
    requires ValidConfig(c)
    ensures var s := Run(c, steps);
      AnyReady(s.outputs) ==>
        && (!Unavailable(s.budget, s.now) <==> s.wake.pending == map[s.wake.event := s.now])
        && (!Unavailable(s.budget, s.now) ==> Next(s, Elapse(to)).now == s.now)
  {
    RunInv(c, steps);
    var s := Run(c, steps);
    if AnyReady(s.outputs) {
      ReadyAndFree(s, to);
    }
    hide *;
  }

  lemma ReadyAndFree(s: State, to: int)
    requires Inv(s) && AnyReady(s.outputs)
    ensures !Unavailable(s.budget, s.now) <==> s.wake.pending == map[s.wake.event := s.now]
    ensures !Unavailable(s.budget, s.now) ==> Next(s, Elapse(to)).now == s.now
  {
    hide Core, Fits, Waited, AnyReady;
    if s.wake.event in s.wake.pending && s.wake.pending[s.wake.event] == s.now {
      assert Next(s, Elapse(to)).now == s.now;
    }
  }

  // ---------- A ready head can meet a free budget ----------

  /** One byte per nanosecond, on the budget and on two links with one waiting slot each. */
  predicate TwoLinks(c: Config) {
    c == Config(8_000_000_000, 100, [1, 1], [8_000_000_000, 8_000_000_000])
  }

  lemma TenBytes(c: Config)
    requires TwoLinks(c)
    ensures ValidConfig(c) && |c.bandwidth| == |c.capacity| == 2 && Duration(10, c.rate) == 10
    ensures Duration(10, c.bandwidth[0]) == Duration(10, c.bandwidth[1]) == 10
  {
    RoundedUp(10, 8_000_000_000, 10, 0);
  }

  lemma FirstStarts(s: State)
    requires TwoLinks(s.c) && s == Init(s.c)
    ensures var t := Next(s, Transmit(0, 10, NotCapable, false));
      && t.c == s.c && t.now == 0 && t.outputs == [Output([], true, 10), Output([], false, 0)]
      && t.budget == Budget(10, false) && t.wake.event == 0 && t.wake.pending == map[] && |t.admitted| == 1
  {
    TenBytes(s.c);
    var a := Accounted(Appended(s, 0, 10, NotCapable, false));
    assert !AnyReady(s.outputs);
    assert CanStartNow(s, 0);
    assert Ready(a.outputs[0]) && !Ready(a.outputs[1]);
    assert AnyReady(a.outputs) && Oldest(a.outputs) == 0;
    var started := Started(a, 0);
    assert a.outputs[0].queue[1..] == [] && a.outputs[0].queue[0].size == 10;
    assert started.outputs[0] == Output([], true, 10) && started.outputs[1] == Output([], false, 0);
    assert started.outputs == [Output([], true, 10), Output([], false, 0)];
    assert !AnyReady(started.outputs);
    assert Drained(a) == Drained(started) == started by { hide Duration; }
  }

  lemma SecondWaits(s: State)
    requires TwoLinks(s.c) && s.now == 0 && s.outputs == [Output([], true, 10), Output([], false, 0)]
    requires s.budget == Budget(10, false) && s.wake.event == 0 && s.wake.pending == map[] && |s.admitted| == 1
    ensures var t := Next(s, Transmit(1, 10, NotCapable, false));
      && t.c == s.c && t.now == 0 && |t.outputs| == 2 && t.outputs[0] == s.outputs[0] && Ready(t.outputs[1])
      && t.budget == s.budget && t.wake.pending == map[t.wake.event := 10]
  {
    TenBytes(s.c);
    var a := Accounted(Appended(s, 1, 10, NotCapable, false));
    assert Ready(a.outputs[1]);
    assert Drained(a) == a by { hide Duration; }
  }

  lemma GrantArrives(s: State)
    requires TwoLinks(s.c) && s.now == 0 && |s.outputs| == 2 && s.outputs[0] == Output([], true, 10) && Ready(s.outputs[1])
    requires s.budget == Budget(10, false) && s.wake.pending == map[s.wake.event := 10]
    ensures var t := Next(s, Elapse(10)); AnyReady(t.outputs) && !Unavailable(t.budget, t.now)
  {
    TenBytes(s.c);
    assert Ready(s.outputs[1]);
  }

  lemma RunNext(c: Config, steps: seq<Step>, step: Step, longer: seq<Step>)
    requires longer == steps + [step]
    ensures Run(c, longer) == Next(Run(c, steps), step)
  {
    assert longer[..|steps|] == steps;
  }

  lemma RunStarts(c: Config, steps: seq<Step>)
    requires steps == []
    ensures Run(c, steps) == Init(c)
  {
  }

  /** In this run a ready head meets a free budget: time reaches the grant at which the packet of
      the second output may start, and its wake-up has not fired yet. */
  lemma ReadyHeadMeetsFreeBudget(c: Config, steps: seq<Step>)
    requires TwoLinks(c)
    requires steps == [Transmit(0, 10, NotCapable, false), Transmit(1, 10, NotCapable, false), Elapse(10)]
    ensures var s := Run(c, steps); AnyReady(s.outputs) && !Unavailable(s.budget, s.now)
  {
    hide *;
    RunStarts(c, steps[..0]);
    InitialConfig(c);
    RunNext(c, steps[..0], Transmit(0, 10, NotCapable, false), steps[..1]);
    FirstStarts(Run(c, steps[..0]));
    RunNext(c, steps[..1], Transmit(1, 10, NotCapable, false), steps[..2]);
    SecondWaits(Run(c, steps[..1]));
    RunNext(c, steps[..2], Elapse(10), steps);
    GrantArrives(Run(c, steps[..2]));
  }

  lemma InitialConfig(c: Config)
    ensures Init(c).c == c
  {
  }

  /** The statistic equals `blocked`: how long, in all, some head was ready and the budget was not. */
  lemma BudgetWaitExact(c: Config, steps: seq<Step>)
    requires ValidConfig(c)
    ensures var s := Run(c, steps);
      s.wait.total + CurrentWait(s.wait, s.budget, s.now) == s.blocked
  {
    RunInv(c, steps);
    hide Run, Core, AnyReady;
  }

  function Bytes(admitted: seq<Admission>, starts: seq<Start>): nat
    requires forall i :: 0 <= i < |starts| ==> 1 <= starts[i].sequence <= |admitted|
  {
    if starts == [] then 0 else admitted[starts[0].sequence - 1].size + Bytes(admitted, starts[1..])
  }

  /** Consecutive starts: their exact costs, each rounded up, fit between first and last. */
  lemma {:induction false} BytesSpaced(c: Config, now: int, admitted: seq<Admission>, starts: seq<Start>, i: nat, j: nat)
    requires OldestFirst(admitted, starts) && Spaced(admitted, starts) && Admissions(c, now, admitted)
    requires i <= j < |starts|
    ensures Bytes(admitted, starts[i..j]) * BITS_NANOSECONDS_PER_BYTE <= c.rate * (starts[j].at - starts[i].at)
    decreases j - i
  {
    if i < j {
      var a := admitted[starts[i].sequence - 1];
      BytesSpaced(c, now, admitted, starts, i + 1, j);
      assert starts[i..j][1..] == starts[i + 1..j];
      DurationExact(a.size, c.rate);
      hide Duration, Bytes, OldestFirst, Admissions;
      SpanSplits(c.rate, a.size * BITS_NANOSECONDS_PER_BYTE, a.cost, starts[i].at, starts[i + 1].at, starts[j].at);
    }
  }

  /** One grant, and the time after it, within a span. */
  lemma SpanSplits(rate: nat, carried: int, cost: nat, first: int, second: int, last: int)
    requires carried <= rate * cost && first + cost <= second
    ensures carried + rate * (last - second) <= rate * (last - first)
  {
    Monotone(cost, second - first, rate);
    assert rate * (last - first) == rate * (last - second) + rate * (second - first);
  }

  /** In every window of virtual time, the packets started across all outputs, the last one
      excluded, carry at most the shared rate's worth of bits. */
  lemma RateBound(c: Config, steps: seq<Step>, a: int, b: int, i: nat, j: nat)
    requires ValidConfig(c)
    ensures var s := Run(c, steps);
      i <= j < |s.starts| && a <= s.starts[i].at && s.starts[j].at <= b ==>
        && (forall k :: 0 <= k < |s.starts| ==> 1 <= s.starts[k].sequence <= |s.admitted|)
        && Bytes(s.admitted, s.starts[i..j]) * BITS_NANOSECONDS_PER_BYTE <= c.rate * (b - a)
  {
    hide Run, Inv, Spaced, Admissions;
    RunInv(c, steps);
    var s := Run(c, steps);
    StartsSpaced(s);
    if i <= j < |s.starts| && a <= s.starts[i].at && s.starts[j].at <= b {
      BytesSpaced(c, s.now, s.admitted, s.starts, i, j);
      Monotone(s.starts[j].at - s.starts[i].at, b - a, c.rate);
    }
  }

  lemma StartsSpaced(s: State)
    requires Inv(s)
    ensures OldestFirst(s.admitted, s.starts) && Spaced(s.admitted, s.starts) && Admissions(s.c, s.now, s.admitted)
  {
  }
}
