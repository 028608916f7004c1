/** The egress dispatcher: every output of the balancer shares one forwarding budget.

    `State` is the dispatcher with the clock, the links it drives and the engine events it
    owns; a `Step` is an arriving packet, a link that falls free, a budget wake-up, or the
    passing of virtual time. What happens inside one engine callback is one step. The
    histories `admitted`, `starts` and the area `blocked` only state what the fields mean. */
module Egress {
  import opened Basics
  import opened Serialization

  /** The shared rate, the end of the experiment, and each output's waiting capacity and link rate. */
  datatype Config = Config(rate: nat, endTime: int, capacity: seq<nat>, bandwidth: seq<nat>)

  predicate ValidConfig(c: Config) {
    && c.rate > 0 && c.endTime >= 0 && |c.capacity| == |c.bandwidth|
    && forall o :: 0 <= o < |c.bandwidth| ==> c.bandwidth[o] > 0
  }

  /** One waiting packet; `sequence` counts admissions from one. */
  datatype Packet = Packet(size: nat, cost: nat, marked: bool, queuedAt: int, sequence: nat)

  /** One output: its waiting packets, and whether its link transmits until `doneAt`. */
  datatype Output = Output(queue: seq<Packet>, busy: bool, doneAt: int)

  datatype Budget = Budget(nextGrantAt: int, beyondEnd: bool)

  /** The remembered wake-up, zero for none, and those the engine really holds. */
  datatype Wake = Wake(event: nat, at: int, pending: map<nat, int>, nextEvent: nat)

  /** Budget waiting: the total of closed intervals, and the interval still open. */
  datatype Wait = Wait(total: int, waiting: bool, startedAt: int)

  datatype Stats = Stats(offered: nat, accepted: nat, dropped: nat, marked: nat, queued: int, forwarded: nat, forwardedBytes: nat)

  datatype Admission = Admission(output: nat, size: nat, cost: nat, at: int, marked: bool)

  /** One start: when, which admission, and the heads that were ready at that moment. */
  datatype Start = Start(at: int, sequence: nat, heads: set<nat>)

  datatype State = State(
    c: Config,
    now: int,
    outputs: seq<Output>,
    budget: Budget,
    wake: Wake,
    wait: Wait,
    stats: Stats,
    admitted: seq<Admission>,
    starts: seq<Start>,
    blocked: int)

  function Init(c: Config): State {
    State(c, 0, seq(|c.bandwidth|, _ => Output([], false, 0)), Budget(0, false), Wake(0, 0, map[], 0),
          Wait(0, false, 0), Stats(0, 0, 0, 0, 0, 0, 0), [], [], 0)
  }

  // ---------- Readiness ----------

  /** A waiting head and a free link. */
  predicate Ready(out: Output) {
    !out.busy && out.queue != []
  }

  predicate AnyReady(outputs: seq<Output>) {
    exists o :: 0 <= o < |outputs| && Ready(outputs[o])
  }

  predicate Unavailable(b: Budget, now: int) {
    b.beyondEnd || now < b.nextGrantAt
  }

  predicate Blocked(s: State) {
    AnyReady(s.outputs) && Unavailable(s.budget, s.now)
  }

  predicate Older(p: Packet, q: Packet) {
    if p.queuedAt == q.queuedAt then p.sequence < q.sequence else p.queuedAt < q.queuedAt
  }

  /** No ready head is older than that of `o`. */
  ghost predicate IsOldest(outputs: seq<Output>, o: nat) {
    && o < |outputs| && Ready(outputs[o])
    && forall p :: 0 <= p < |outputs| && Ready(outputs[p]) ==> !Older(outputs[p].queue[0], outputs[o].queue[0])
  }

  lemma {:induction false} OldestExists(outputs: seq<Output>)
    requires AnyReady(outputs)
    ensures exists o: nat :: IsOldest(outputs, o)
    decreases |outputs|
  {
    var n := |outputs| - 1;
    var rest := outputs[..n];
    if AnyReady(rest) {
      OldestExists(rest);
      var o: nat :| IsOldest(rest, o);
      assert forall p :: 0 <= p < n ==> outputs[p] == rest[p];
      if Ready(outputs[n]) && Older(outputs[n].queue[0], outputs[o].queue[0]) {
        forall p | 0 <= p < |outputs| && Ready(outputs[p]) ensures !Older(outputs[p].queue[0], outputs[n].queue[0]) {
          if p < n {
            assert Ready(rest[p]);
          }
        }
        assert IsOldest(outputs, n);
      } else {
        assert IsOldest(outputs, o);
      }
    } else {
      var r :| 0 <= r < |outputs| && Ready(outputs[r]);
      assert forall p :: 0 <= p < n ==> rest[p] == outputs[p];
      assert IsOldest(outputs, n);
    }
  }

  ghost function Oldest(outputs: seq<Output>): (o: nat)
    requires AnyReady(outputs)
    ensures IsOldest(outputs, o)
  {
    OldestExists(outputs);
    var o: nat :| IsOldest(outputs, o);
    o
  }

  /** The admission numbers of all ready heads. */
  ghost function Heads(outputs: seq<Output>): set<nat> {
    set o | 0 <= o < |outputs| && Ready(outputs[o]) :: outputs[o].queue[0].sequence
  }

  // ---------- Dispatch ----------

  function QueuedSum(outputs: seq<Output>): nat {
    if outputs == [] then 0 else |outputs[0].queue| + QueuedSum(outputs[1..])
  }

  lemma {:induction false} QueuedSumUpdate(outputs: seq<Output>, o: nat, out: Output)
    requires o < |outputs|
    ensures QueuedSum(outputs[o := out]) == QueuedSum(outputs) - |outputs[o].queue| + |out.queue|
    decreases |outputs|
  {
    if o == 0 {
      assert outputs[0 := out][1..] == outputs[1..];
    } else {
      assert outputs[o := out][1..] == outputs[1..][o - 1 := out];
      QueuedSumUpdate(outputs[1..], o - 1, out);
    }
  }

  /** The grant of one start; a grant past the end only sets a flag. */
  function Reserved(c: Config, now: int, cost: nat): Budget {
    if cost > c.endTime - now then Budget(c.endTime, true) else Budget(now + cost, false)
  }

  ghost function Started(s: State, o: nat): State
    requires o < |s.outputs| && Ready(s.outputs[o]) && ValidConfig(s.c) && |s.outputs| == |s.c.bandwidth|
  {
    var p := s.outputs[o].queue[0];
    var out := Output(s.outputs[o].queue[1..], true, s.now + Duration(p.size, s.c.bandwidth[o]));
    s.(outputs := s.outputs[o := out],
       budget := Reserved(s.c, s.now, p.cost),
       stats := s.stats.(queued := s.stats.queued - 1, forwarded := s.stats.forwarded + 1,
                         forwardedBytes := s.stats.forwardedBytes + p.size),
       starts := s.starts + [Start(s.now, p.sequence, Heads(s.outputs))])
  }

  /** Starts the oldest ready heads until none is ready or the budget is taken. */
  ghost function Drained(s: State): State
    requires ValidConfig(s.c) && |s.outputs| == |s.c.bandwidth|
    decreases QueuedSum(s.outputs)
  {
    if AnyReady(s.outputs) && !Unavailable(s.budget, s.now) then
      var o := Oldest(s.outputs);
      QueuedSumUpdate(s.outputs, o, Started(s, o).outputs[o]);
      Drained(Started(s, o))
    else s
  }

  /** The length of the open interval: blocked time ends at the grant, not at the next event. */
  function CurrentWait(w: Wait, b: Budget, now: int): int {
    if !w.waiting then 0 else
      var until := if !b.beyondEnd && now > b.nextGrantAt then b.nextGrantAt else now;
      if until <= w.startedAt then 0 else until - w.startedAt
  }

  function Accounted(s: State): State {
    s.(wait := Wait(s.wait.total + CurrentWait(s.wait, s.budget, s.now), Blocked(s), s.now))
  }

  /** Keeps one wake-up for a grant that is awaited, and cancels any other. */
  function Rescheduled(w: Wake, needed: bool, at: int): Wake {
    if needed && w.event != 0 && w.at == at then w else
      var kept := if w.event != 0 then w.pending - {w.event} else w.pending;
      if needed then Wake(w.nextEvent + 1, at, kept[w.nextEvent + 1 := at], w.nextEvent + 1)
      else Wake(0, w.at, kept, w.nextEvent)
  }

  function WakeScheduled(s: State): State {
    s.(wake := Rescheduled(s.wake, Blocked(s) && !s.budget.beyondEnd, s.budget.nextGrantAt))
  }

  ghost function Dispatched(s: State): State
    requires ValidConfig(s.c) && |s.outputs| == |s.c.bandwidth|
  {
    WakeScheduled(Accounted(Drained(Accounted(s))))
  }

  // ---------- Steps ----------

  datatype Step =
    | Transmit(output: nat, size: nat, ecn: ECNState, congested: bool)
    | LinkFree(output: nat)
    | WakeUp(event: nat)
    | Elapse(to: int)

  predicate CanStartNow(s: State, o: nat)
    requires o < |s.outputs|
  {
    && !s.outputs[o].busy && s.outputs[o].queue == []
    && !Unavailable(s.budget, s.now) && !AnyReady(s.outputs)
  }

  /** A packet that starts at once needs no slot; any other needs one free in its own queue. */
  predicate Admits(s: State, o: nat)
    requires o < |s.outputs| && |s.outputs| == |s.c.capacity|
  {
    CanStartNow(s, o) || |s.outputs[o].queue| < s.c.capacity[o]
  }

  /** The congestion policy may signal only a packet that has to wait. */
  predicate Signalled(s: State, o: nat, congested: bool)
    requires o < |s.outputs| && |s.outputs| == |s.c.capacity|
  {
    Admits(s, o) && !CanStartNow(s, o) && congested
  }

  predicate Accepts(s: State, o: nat, ecn: ECNState, congested: bool)
    requires o < |s.outputs| && |s.outputs| == |s.c.capacity|
  {
    Admits(s, o) && !(Signalled(s, o, congested) && ecn.NotCapable?)
  }

  function Dropped(s: State): State {
    s.(stats := s.stats.(offered := s.stats.offered + 1, dropped := s.stats.dropped + 1))
  }

  /** The packet joins its queue with the next admission number. */
  function Appended(s: State, o: nat, size: nat, ecn: ECNState, signalled: bool): State
    requires o < |s.outputs| && s.c.rate > 0
  {
    var cost := Duration(size, s.c.rate);
    var mark := signalled && ecn.Capable?;
    var p := Packet(size, cost, ecn.AlreadyMarked? || mark, s.now, |s.admitted| + 1);
    s.(outputs := s.outputs[o := s.outputs[o].(queue := s.outputs[o].queue + [p])],
       admitted := s.admitted + [Admission(o, size, cost, s.now, p.marked)],
       stats := s.stats.(offered := s.stats.offered + 1, accepted := s.stats.accepted + 1, queued := s.stats.queued + 1,
                         marked := if mark then s.stats.marked + 1 else s.stats.marked))
  }

  ghost function Transmitted(s: State, o: nat, size: nat, ecn: ECNState, congested: bool): State
    requires ValidConfig(s.c) && o < |s.outputs| == |s.c.capacity|
  {
    if Accepts(s, o, ecn, congested) then Dispatched(Appended(s, o, size, ecn, Signalled(s, o, congested)))
    else Dropped(s)
  }

  function Freed(s: State, o: nat): State
    requires o < |s.outputs|
  {
    s.(outputs := s.outputs[o := s.outputs[o].(busy := false)])
  }

  function Woken(s: State, event: nat): State {
    s.(wake := s.wake.(event := 0, pending := s.wake.pending - {event}))
  }

  function Elapsed(s: State, to: int): State {
    s.(now := to, blocked := s.blocked + if Blocked(s) then to - s.now else 0)
  }

  /** What the engine allows: events fire at their time, and time never passes one. A packet
      whose duration does not fit, or past the last admission number, ends the run instead. */
  predicate Enabled(s: State, step: Step)
    requires ValidConfig(s.c) && |s.outputs| == |s.c.capacity|
  {
    match step
    case Transmit(o, size, _, _) =>
      && o < |s.outputs| && |s.admitted| < MAX_UINT64
      && Duration(size, s.c.rate) <= MAX_INT64 && Duration(size, s.c.bandwidth[o]) <= MAX_INT64
    case LinkFree(o) => o < |s.outputs| && s.outputs[o].busy && s.outputs[o].doneAt == s.now
    case WakeUp(event) => event in s.wake.pending && s.wake.pending[event] == s.now
    case Elapse(to) =>
      && s.now <= to <= s.c.endTime
      && (forall o :: 0 <= o < |s.outputs| && s.outputs[o].busy && s.outputs[o].doneAt <= s.c.endTime ==> to <= s.outputs[o].doneAt)
      && (forall event :: event in s.wake.pending ==> to <= s.wake.pending[event])
  }

  ghost function Next(s: State, step: Step): State {
    if !ValidConfig(s.c) || |s.outputs| != |s.c.capacity| || !Enabled(s, step) then s else
      match step
      case Transmit(o, size, ecn, congested) => Transmitted(s, o, size, ecn, congested)
      case LinkFree(o) => Dispatched(Freed(s, o))
      case WakeUp(event) => Dispatched(Woken(s, event))
      case Elapse(to) => Elapsed(s, to)
  }
}
