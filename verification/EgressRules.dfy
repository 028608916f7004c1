/** What the dispatcher does with one packet and with one link: when a packet is refused, when it
    starts at once, and how long each output's own link stays taken. */
module EgressRules {
  import opened Basics
  import opened Serialization
  import opened Egress
  import opened EgressSafety

  // ---------- Each link at its own rate ----------

  predicate OfOutput(admitted: seq<Admission>, start: Start, o: nat) {
    1 <= start.sequence <= |admitted| && admitted[start.sequence - 1].output == o
  }

  /** How long one start keeps the link of `o`. */
  function Busy(c: Config, admitted: seq<Admission>, start: Start, o: nat): nat
    requires ValidConfig(c) && o < |c.bandwidth| && 1 <= start.sequence <= |admitted|
  {
    Duration(admitted[start.sequence - 1].size, c.bandwidth[o])
  }

  /** Every start of `o` is over by `out.doneAt`, which is the end of its last one while the link is
      taken and past otherwise; and each began after the one before had ended. */
  ghost predicate LinkExact(c: Config, now: int, out: Output, admitted: seq<Admission>, starts: seq<Start>, o: nat)
    requires ValidConfig(c) && o < |c.bandwidth|
  {
    && (forall i :: 0 <= i < |starts| && OfOutput(admitted, starts[i], o) ==>
          starts[i].at <= now && starts[i].at + Busy(c, admitted, starts[i], o) <= out.doneAt)
    && (forall i, j :: 0 <= i < j < |starts| && OfOutput(admitted, starts[i], o) && OfOutput(admitted, starts[j], o) ==>
          starts[i].at + Busy(c, admitted, starts[i], o) <= starts[j].at)
    && (if out.busy then now <= out.doneAt && LastEnds(c, out.doneAt, admitted, starts, o) else out.doneAt <= now)
  }

  ghost predicate LastEnds(c: Config, doneAt: int, admitted: seq<Admission>, starts: seq<Start>, o: nat)
    requires ValidConfig(c) && o < |c.bandwidth|
  {
    exists i :: 0 <= i < |starts| && LastOf(admitted, starts, o, i) && doneAt == starts[i].at + Busy(c, admitted, starts[i], o)
  }

  ghost predicate LastOf(admitted: seq<Admission>, starts: seq<Start>, o: nat, i: int)
    requires 0 <= i < |starts|
  {
    OfOutput(admitted, starts[i], o) && forall j :: i < j < |starts| ==> !OfOutput(admitted, starts[j], o)
  }

  ghost predicate LinksExact(s: State) {
    && ValidConfig(s.c) && |s.outputs| == |s.c.bandwidth|
    && (forall i :: 0 <= i < |s.starts| ==> 1 <= s.starts[i].sequence <= |s.admitted|)
    && s.stats.forwardedBytes == Bytes(s.admitted, s.starts)
    && forall o: nat :: o < |s.outputs| ==> LinkExact(s.c, s.now, s.outputs[o], s.admitted, s.starts, o)
  }

  lemma StartLink(c: Config, now: int, out: Output, admitted: seq<Admission>, starts: seq<Start>, o: nat, start: Start, size: nat)
    requires ValidConfig(c) && o < |c.bandwidth| && LinkExact(c, now, out, admitted, starts, o) && !out.busy
    requires OfOutput(admitted, start, o) && start.at == now && admitted[start.sequence - 1].size == size
    ensures LinkExact(c, now, Output(out.queue[1..], true, now + Duration(size, c.bandwidth[o])), admitted, starts + [start], o)
    requires out.queue != []
  {
    hide Duration;
    var all := starts + [start];
    assert LastOf(admitted, all, o, |starts|);
  }

  lemma OtherLink(c: Config, now: int, out: Output, admitted: seq<Admission>, starts: seq<Start>, o: nat, start: Start)
    requires ValidConfig(c) && o < |c.bandwidth| && LinkExact(c, now, out, admitted, starts, o) && !OfOutput(admitted, start, o)
    ensures LinkExact(c, now, out, admitted, starts + [start], o)
  {
    hide Duration;
    if out.busy {
      var i :| 0 <= i < |starts| && LastOf(admitted, starts, o, i) && out.doneAt == starts[i].at + Busy(c, admitted, starts[i], o);
      assert LastOf(admitted, starts + [start], o, i);
      assert (starts + [start])[i] == starts[i];
    }
  }

  lemma HeadAdmitted(s: State, o: nat)
    requires Core(s) && o < |s.outputs| && s.outputs[o].queue != []
    ensures var p := s.outputs[o].queue[0];
      1 <= p.sequence <= |s.admitted| && s.admitted[p.sequence - 1].output == o && s.admitted[p.sequence - 1].size == p.size
  {
    hide OldestFirst, PerOutput, Granted, Spaced, QueuedSum;
    assert Matches(s.outputs[o].queue[0], o, s.admitted);
  }

  lemma {:induction false} BytesOneMore(admitted: seq<Admission>, starts: seq<Start>, start: Start)
    requires forall i :: 0 <= i < |starts| ==> 1 <= starts[i].sequence <= |admitted|
    requires 1 <= start.sequence <= |admitted|
    ensures Bytes(admitted, starts + [start]) == Bytes(admitted, starts) + admitted[start.sequence - 1].size
    decreases |starts|
  {
    if starts == [] {
      assert ([start])[1..] == [];
    } else {
      assert (starts + [start])[1..] == starts[1..] + [start];
      BytesOneMore(admitted, starts[1..], start);
    }
  }

  lemma {:induction false} BytesOfStarts(admitted: seq<Admission>, starts: seq<Start>, a: Admission)
    requires forall i :: 0 <= i < |starts| ==> 1 <= starts[i].sequence <= |admitted|
    ensures Bytes(admitted + [a], starts) == Bytes(admitted, starts)
    decreases |starts|
  {
    if starts != [] {
      BytesOfStarts(admitted, starts[1..], a);
    }
  }

  lemma StartedLinks(s: State, o: nat)
    requires Core(s) && LinksExact(s) && o < |s.outputs| && Ready(s.outputs[o])
    ensures LinksExact(Started(s, o))
  {
    hide Core, LinkExact, Duration, Heads, Reserved, Bytes;
    HeadAdmitted(s, o);
    var p := s.outputs[o].queue[0];
    var start := Started(s, o).starts[|s.starts|];
    BytesOneMore(s.admitted, s.starts, start);
    StartLink(s.c, s.now, s.outputs[o], s.admitted, s.starts, o, start, p.size);
    forall q: nat | q < |s.outputs| && q != o ensures LinkExact(s.c, s.now, s.outputs[q], s.admitted, s.starts + [start], q) {
      OtherLink(s.c, s.now, s.outputs[q], s.admitted, s.starts, q, start);
    }
  }

  lemma {:induction false} DrainedLinks(s: State)
    requires Core(s) && LinksExact(s)
    ensures LinksExact(Drained(s))
    decreases QueuedSum(s.outputs)
  {
    hide Core, LinksExact, AnyReady, QueuedSum, Heads, IsOldest, Fits;
    CoreShape(s);
    if AnyReady(s.outputs) && !Unavailable(s.budget, s.now) {
      var o := Oldest(s.outputs);
      OldestReady(s.outputs, o);
      StartedKeeps(s, o);
      StartedLinks(s, o);
      DrainedLinks(Started(s, o));
    }
  }

  lemma DispatchedLinks(s: State)
    requires Core(s) && LinksExact(s)
    ensures LinksExact(Dispatched(s))
  {
    CoreShape(s);
    CoreIgnoresWait(s, Accounted(s));
    SameLinks(s, Accounted(s));
    hide Core, Drained, LinksExact, Accounted, WakeScheduled;
    DrainedLinks(Accounted(s));
    var d := Drained(Accounted(s));
    AccountedFrame(d);
    SameLinks(d, Dispatched(s));
  }

  lemma AccountedFrame(s: State)
    ensures var t := WakeScheduled(Accounted(s));
      && t.c == s.c && t.now == s.now && t.outputs == s.outputs && t.admitted == s.admitted && t.starts == s.starts
      && t.stats == s.stats
  {
  }

  lemma SameLinks(s: State, t: State)
    requires LinksExact(s) && t.c == s.c && t.now == s.now && t.outputs == s.outputs && t.admitted == s.admitted && t.starts == s.starts
    requires t.stats.forwardedBytes == s.stats.forwardedBytes
    ensures LinksExact(t)
  {
    hide LinkExact;
  }

  /** A new admission concerns no start. */
  lemma AppendLink(c: Config, now: int, out: Output, admitted: seq<Admission>, starts: seq<Start>, o: nat, a: Admission, queue: seq<Packet>)
    requires ValidConfig(c) && o < |c.bandwidth| && LinkExact(c, now, out, admitted, starts, o)
    requires forall i :: 0 <= i < |starts| ==> 1 <= starts[i].sequence <= |admitted|
    ensures LinkExact(c, now, out.(queue := queue), admitted + [a], starts, o)
  {
    hide Duration;
    if out.busy {
      var i :| 0 <= i < |starts| && LastOf(admitted, starts, o, i) && out.doneAt == starts[i].at + Busy(c, admitted, starts[i], o);
      assert LastOf(admitted + [a], starts, o, i);
    }
  }

  lemma AppendedLinks(s: State, o: nat, size: nat, ecn: ECNState, signalled: bool)
    requires LinksExact(s) && o < |s.outputs| && s.c.rate > 0
    ensures LinksExact(Appended(s, o, size, ecn, signalled))
  {
    hide LinkExact, Duration, Bytes;
    var t := Appended(s, o, size, ecn, signalled);
    BytesOfStarts(s.admitted, s.starts, t.admitted[|s.admitted|]);
    forall q: nat | q < |s.outputs| ensures LinkExact(t.c, t.now, t.outputs[q], t.admitted, t.starts, q) {
      AppendLink(s.c, s.now, s.outputs[q], s.admitted, s.starts, q, t.admitted[|s.admitted|], t.outputs[q].queue);
    }
  }

  lemma StepLinks(s: State, step: Step)
    requires Inv(s) && LinksExact(s)
    ensures LinksExact(Next(s, step))
  {
    CoreShape(s);
    hide Core, Fits, Wakes, Waited, Dispatched, Duration, AnyReady, Appended, Accepts, Signalled;
    if Enabled(s, step) {
      match step
      case Transmit(o, size, ecn, congested) => TransmittedLinks(s, o, size, ecn, congested);
      case LinkFree(o) => FreedLinks(s, o);
      case WakeUp(event) =>
        CoreIgnoresWait(s, Woken(s, event));
        SameLinks(s, Woken(s, event));
        DispatchedLinks(Woken(s, event));
      case Elapse(to) => ElapsedLinks(s, to);
    }
  }

  lemma TransmittedLinks(s: State, o: nat, size: nat, ecn: ECNState, congested: bool)
    requires Core(s) && LinksExact(s) && o < |s.outputs| == |s.c.capacity|
    ensures LinksExact(Transmitted(s, o, size, ecn, congested))
  {
    CoreShape(s);
    hide Core, LinksExact, Dispatched, Appended, Accepts, Signalled;
    if Accepts(s, o, ecn, congested) {
      AppendedCore(s, o, size, ecn, Signalled(s, o, congested));
      AppendedLinks(s, o, size, ecn, Signalled(s, o, congested));
      DispatchedLinks(Appended(s, o, size, ecn, Signalled(s, o, congested)));
    } else {
      SameLinks(s, Dropped(s));
    }
  }

  lemma FreedLinks(s: State, o: nat)
    requires Core(s) && LinksExact(s) && o < |s.outputs| && s.outputs[o].busy && s.outputs[o].doneAt == s.now
    ensures LinksExact(Dispatched(Freed(s, o)))
  {
    hide Core, LinksExact, Dispatched;
    FreedCore(s, o);
    CoreShape(Freed(s, o));
    FreedExact(s, o);
    DispatchedLinks(Freed(s, o));
  }

  lemma FreedExact(s: State, o: nat)
    requires LinksExact(s) && o < |s.outputs| && s.outputs[o].busy && s.outputs[o].doneAt == s.now
    ensures LinksExact(Freed(s, o))
  {
    hide Duration, LastEnds;
  }

  lemma ElapsedLinks(s: State, to: int)
    requires LinksExact(s) && s.now <= to <= s.c.endTime && |s.outputs| == |s.c.capacity| && Enabled(s, Elapse(to))
    ensures LinksExact(Elapsed(s, to))
  {
    hide Busy, LastEnds;
  }

  lemma LinksStart(c: Config)
    requires ValidConfig(c)
    ensures LinksExact(Init(c))
  {
  }

  lemma {:induction false} RunLinks(c: Config, steps: seq<Step>)
    requires ValidConfig(c)
    ensures LinksExact(Run(c, steps)) && Run(c, steps).c == c
    decreases |steps|
  {
    RunInv(c, steps);
    if steps == [] {
      LinksStart(c);
    } else {
      hide Inv, Next, Init, LinksExact;
      RunInv(c, steps[..|steps| - 1]);
      RunLinks(c, steps[..|steps| - 1]);
      StepLinks(Run(c, steps[..|steps| - 1]), steps[|steps| - 1]);
    }
  }

  /** A taken link became so at the last start of its output and falls free exactly when that
      packet's own serialization at the link's bandwidth has passed; and each start of an output
      waits for the one before to end. */
  lemma LinkTimesExact(c: Config, steps: seq<Step>, o: nat)
    requires ValidConfig(c) && o < |c.bandwidth|
    ensures var s := Run(c, steps);
      && |s.outputs| == |c.bandwidth|
      && (s.outputs[o].busy ==> exists i ::
            0 <= i < |s.starts| && LastOf(s.admitted, s.starts, o, i)
            && s.outputs[o].doneAt == s.starts[i].at + Duration(s.admitted[s.starts[i].sequence - 1].size, c.bandwidth[o]))
      && (forall i, j :: 0 <= i < j < |s.starts| && OfOutput(s.admitted, s.starts[i], o) && OfOutput(s.admitted, s.starts[j], o) ==>
            s.starts[i].at + Duration(s.admitted[s.starts[i].sequence - 1].size, c.bandwidth[o]) <= s.starts[j].at)
  {
    RunLinks(c, steps);
    hide Run, Duration;
    var s := Run(c, steps);
    assert LinkExact(c, s.now, s.outputs[o], s.admitted, s.starts, o);
  }

  /** The bytes of output `o` among `starts`. */
  function OutputBytes(admitted: seq<Admission>, starts: seq<Start>, o: nat): nat {
    if starts == [] then 0
    else (if OfOutput(admitted, starts[0], o) then admitted[starts[0].sequence - 1].size else 0) + OutputBytes(admitted, starts[1..], o)
  }

  lemma {:induction false} OutputBytesSpaced(c: Config, now: int, out: Output, admitted: seq<Admission>, starts: seq<Start>,
                                             o: nat, i: nat, j: nat, from: int)
    requires ValidConfig(c) && o < |c.bandwidth| && LinkExact(c, now, out, admitted, starts, o)
    requires i <= j < |starts| && OfOutput(admitted, starts[j], o)
    requires forall k :: i <= k <= j && OfOutput(admitted, starts[k], o) ==> from <= starts[k].at
    ensures OutputBytes(admitted, starts[i..j], o) * BITS_NANOSECONDS_PER_BYTE <= c.bandwidth[o] * (starts[j].at - from)
    decreases j - i
  {
    if i < j {
      assert starts[i..j][1..] == starts[i + 1..j];
      if OfOutput(admitted, starts[i], o) {
        var size, busy := admitted[starts[i].sequence - 1].size, Busy(c, admitted, starts[i], o);
        DurationExact(size, c.bandwidth[o]);
        OutputBytesSpaced(c, now, out, admitted, starts, o, i + 1, j, starts[i].at + busy);
        hide Duration, Busy, LinkExact, OutputBytes;
        Carried(c.bandwidth[o], size, OutputBytes(admitted, starts[i + 1..j], o), busy, from, starts[i].at, starts[j].at);
      } else {
        OutputBytesSpaced(c, now, out, admitted, starts, o, i + 1, j, from);
      }
    } else {
      assert starts[i..j] == [];
      Monotone(from, starts[j].at, c.bandwidth[o]);
      assert c.bandwidth[o] * (starts[j].at - from) >= 0;
    }
  }

  lemma Carried(rate: nat, size: nat, rest: nat, busy: nat, from: int, first: int, last: int)
    requires size * BITS_NANOSECONDS_PER_BYTE <= rate * busy && from <= first
    requires rest * BITS_NANOSECONDS_PER_BYTE <= rate * (last - (first + busy))
    ensures (size + rest) * BITS_NANOSECONDS_PER_BYTE <= rate * (last - from)
  {
    assert rate * (last - (first + busy)) == rate * last - rate * first - rate * busy;
    Monotone(from, first, rate);
    assert rate * (last - from) == rate * last - rate * from;
  }

  /** In every window of virtual time an output's packets, the last one excluded, carry at most its
      own link's bandwidth. */
  lemma LinkRateBound(c: Config, steps: seq<Step>, o: nat, a: int, b: int, i: nat, j: nat)
    requires ValidConfig(c) && o < |c.bandwidth|
    ensures var s := Run(c, steps);
      i <= j < |s.starts| && OfOutput(s.admitted, s.starts[j], o) && s.starts[j].at <= b
      && (forall k :: i <= k <= j && OfOutput(s.admitted, s.starts[k], o) ==> a <= s.starts[k].at) ==>
        OutputBytes(s.admitted, s.starts[i..j], o) * BITS_NANOSECONDS_PER_BYTE <= c.bandwidth[o] * (b - a)
  {
    hide Run, Duration, OutputBytes, LinkExact;
    RunLinks(c, steps);
    var s := Run(c, steps);
    if i <= j < |s.starts| && OfOutput(s.admitted, s.starts[j], o) && s.starts[j].at <= b
       && (forall k :: i <= k <= j && OfOutput(s.admitted, s.starts[k], o) ==> a <= s.starts[k].at) {
      OutputBytesSpaced(c, s.now, s.outputs[o], s.admitted, s.starts, o, i, j, a);
      Monotone(s.starts[j].at - a, b - a, c.bandwidth[o]);
    }
  }

  /** What the counters and the budget say after any steps: every offered packet is accepted or
      dropped, every accepted one waits or was forwarded with its bytes, and the next grant is due
      when the cost of the last start is over, unless that is past the end. */
  lemma BooksExact(c: Config, steps: seq<Step>)
    requires ValidConfig(c)
    ensures var s := Run(c, steps);
      && s.stats.offered == |s.admitted| + s.stats.dropped && |s.admitted| == |s.starts| + s.stats.queued
      && s.stats.forwarded == |s.starts| && (forall i :: 0 <= i < |s.starts| ==> 1 <= s.starts[i].sequence <= |s.admitted|)
      && s.stats.forwardedBytes == Bytes(s.admitted, s.starts)
      && (s.starts == [] ==> s.budget == Budget(0, false))
      && (s.starts != [] ==>
            var last := s.starts[|s.starts| - 1]; var admission := s.admitted[last.sequence - 1];
            var at := last.at + Duration(admission.size, c.rate);
            s.budget == if at > c.endTime then Budget(c.endTime, true) else Budget(at, false))
  {
    hide Run, LinkExact, Wakes, Waited, Fits, Queues, Spaced, PerOutput, QueuedSum, Duration, Bytes;
    RunInv(c, steps);
    RunLinks(c, steps);
  }

  // ---------- One packet ----------

  /** A packet starts at once when its link and the budget are free and nothing else waits to
      start. Otherwise it waits, and is refused exactly when its own queue is full or congestion is
      signalled to a sender that cannot be told by a mark. */
  lemma TransmitRule(s: State, o: nat, size: nat, ecn: ECNState, congested: bool)
    requires Inv(s) && o < |s.outputs| && |s.outputs| == |s.c.capacity| && ValidConfig(s.c)
    requires Enabled(s, Transmit(o, size, ecn, congested))
    ensures var t := Next(s, Transmit(o, size, ecn, congested));
      var atOnce := !s.outputs[o].busy && s.outputs[o].queue == [] && !s.budget.beyondEnd && s.budget.nextGrantAt <= s.now
                    && forall q :: 0 <= q < |s.outputs| ==> s.outputs[q].busy || s.outputs[q].queue == [];
      var refused := !atOnce && (|s.outputs[o].queue| >= s.c.capacity[o] || (congested && ecn == NotCapable));
      && t.stats.offered == s.stats.offered + 1
      && t.stats.dropped == s.stats.dropped + (if refused then 1 else 0)
      && t.stats.marked == s.stats.marked + (if !refused && !atOnce && congested && ecn == Capable then 1 else 0)
      && (refused ==> t == s.(stats := t.stats))
      && (!refused ==> t.admitted == s.admitted + [Admission(o, size, Duration(size, s.c.rate), s.now,
                                                             ecn == AlreadyMarked || (!atOnce && congested && ecn == Capable))])
      && (atOnce ==> |t.starts| == |s.starts| + 1 && t.starts[|s.starts|].sequence == |s.admitted| + 1 && t.starts[|s.starts|].at == s.now)
  {
    assert ValidConfig(s.c) && |s.outputs| == |s.c.bandwidth|;
    hide Core, Fits, Wakes, Waited, Duration;
    var selected := Signalled(s, o, congested);
    if Accepts(s, o, ecn, congested) {
      AppendedStats(s, o, size, ecn, selected);
      AppendedCore(s, o, size, ecn, selected);
      DispatchedFrame(Appended(s, o, size, ecn, selected));
      if CanStartNow(s, o) {
        OneStart(s, o, size, ecn);
      }
    }
  }

  /** While the same grant is still awaited the remembered wake-up stays the same event. */
  lemma UsefulWakeKept(s: State, step: Step)
    requires Inv(s) && !step.WakeUp?
    ensures var t := Next(s, step);
      s.wake.event != 0 && t.wake.event != 0 && t.wake.at == s.wake.at ==> t.wake == s.wake
  {
    CoreShape(s);
    hide Core, Wakes, Waited, Fits, Duration, Dispatched, Appended, Accepts, Signalled;
    if Enabled(s, step) {
      match step
      case Transmit(o, size, ecn, congested) =>
        if Accepts(s, o, ecn, congested) {
          AppendedCore(s, o, size, ecn, Signalled(s, o, congested));
          AppendedWake(s, o, size, ecn, Signalled(s, o, congested));
          WakeKept(Appended(s, o, size, ecn, Signalled(s, o, congested)));
        }
      case LinkFree(o) =>
        FreedCore(s, o);
        WakeKept(Freed(s, o));
      case Elapse(_) =>
    }
  }

  lemma AppendedWake(s: State, o: nat, size: nat, ecn: ECNState, signalled: bool)
    requires o < |s.outputs| && s.c.rate > 0
    ensures Appended(s, o, size, ecn, signalled).wake == s.wake
  {
  }

  lemma WakeKept(s: State)
    requires Core(s)
    ensures ValidConfig(s.c) && |s.outputs| == |s.c.bandwidth|
    ensures var t := Dispatched(s);
      s.wake.event != 0 && t.wake.event != 0 && t.wake.at == s.wake.at ==> t.wake == s.wake
  {
    CoreShape(s);
    CoreIgnoresWait(s, Accounted(s));
    hide Core, Blocked, Drained;
    DrainedKeeps(Accounted(s));
  }

  lemma AppendedStats(s: State, o: nat, size: nat, ecn: ECNState, signalled: bool)
    requires o < |s.outputs| && s.c.rate > 0
    ensures var t := Appended(s, o, size, ecn, signalled);
      && t.stats.offered == s.stats.offered + 1 && t.stats.dropped == s.stats.dropped
      && t.stats.marked == s.stats.marked + (if signalled && ecn == Capable then 1 else 0)
      && t.admitted == s.admitted + [Admission(o, size, Duration(size, s.c.rate), s.now,
                                               ecn == AlreadyMarked || (signalled && ecn == Capable))]
      && t.starts == s.starts && t.now == s.now
  {
  }

  lemma DispatchedFrame(s: State)
    requires Core(s) && ValidConfig(s.c) && |s.outputs| == |s.c.bandwidth|
    ensures var t := Dispatched(s);
      && t.stats.offered == s.stats.offered && t.stats.dropped == s.stats.dropped && t.stats.marked == s.stats.marked
      && t.admitted == s.admitted && s.starts <= t.starts && t.starts == Drained(Accounted(s)).starts
  {
    CoreIgnoresWait(s, Accounted(s));
    hide Core;
    DrainedFrame(Accounted(s));
  }

  lemma {:induction false} DrainedFrame(s: State)
    requires Core(s) && ValidConfig(s.c) && |s.outputs| == |s.c.bandwidth|
    ensures var t := Drained(s);
      && t.stats.offered == s.stats.offered && t.stats.dropped == s.stats.dropped && t.stats.marked == s.stats.marked
      && t.admitted == s.admitted && s.starts <= t.starts
    decreases QueuedSum(s.outputs)
  {
    hide Core, AnyReady, Heads, IsOldest, Fits, QueuedSum;
    if AnyReady(s.outputs) && !Unavailable(s.budget, s.now) {
      var o := Oldest(s.outputs);
      OldestReady(s.outputs, o);
      StartedKeeps(s, o);
      CoreShape(Started(s, o));
      DrainedFrame(Started(s, o));
    }
  }

  lemma OneStart(s: State, o: nat, size: nat, ecn: ECNState)
    requires Core(s) && o < |s.outputs| && ValidConfig(s.c) && |s.outputs| == |s.c.bandwidth| && CanStartNow(s, o)
    ensures var t := Drained(Accounted(Appended(s, o, size, ecn, false)));
      |t.starts| == |s.starts| + 1 && t.starts[|s.starts|].sequence == |s.admitted| + 1 && t.starts[|s.starts|].at == s.now
  {
    hide Duration, Core;
    var a := Accounted(Appended(s, o, size, ecn, false));
    assert Ready(a.outputs[o]);
    var p := Oldest(a.outputs);
    OnlyReady(s.outputs, a.outputs, o, p);
    var b := Started(a, o);
    assert Drained(a) == Drained(b) == b;
  }
}
