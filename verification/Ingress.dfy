/** Separate input FIFOs sharing one physical link, as one global FIFO.

    Here admissions form a single sequence and the link serves it in order; `IngressLink`
    keeps one queue per input, picks the oldest head, and is proved equal to this. The link
    is the source's own: it is free again after serialization, loses some packets, and
    delivers the others after a constant travel time by events the engine fires in
    (time, number) order. */
module Ingress {
  import opened Basics
  import opened Serialization

  datatype Config = Config(inputs: nat, capacity: nat, bandwidth: nat, travel: nat, endTime: int)

  datatype Admission = Admission(input: nat, size: nat, marked: bool)

  /** A waiting packet with its admission number, counted from one. */
  datatype Packet = Packet(size: nat, marked: bool, number: nat)

  /** A travelling packet and its arrival event. */
  datatype Flight = Flight(number: nat, at: int, event: nat)

  /** The counters kept per input and in total; `queued`, `transmitting` and `travelling` are
      current, the others only grow. */
  datatype Counters = Counters(
    offered: int, offeredBytes: int,
    accepted: int, acceptedBytes: int,
    dropped: int, droppedBytes: int,
    marked: int,
    transmittedBytes: int,
    lost: int, lostBytes: int,
    delivered: int, deliveredBytes: int,
    queued: int, transmitting: int, travelling: int)

  const ZERO := Counters(0, 0, 0, 0, 0, 0, 0, 0, 0, 0, 0, 0, 0, 0, 0)

  function Plus(a: Counters, b: Counters): Counters {
    Counters(a.offered + b.offered, a.offeredBytes + b.offeredBytes,
             a.accepted + b.accepted, a.acceptedBytes + b.acceptedBytes,
             a.dropped + b.dropped, a.droppedBytes + b.droppedBytes,
             a.marked + b.marked, a.transmittedBytes + b.transmittedBytes,
             a.lost + b.lost, a.lostBytes + b.lostBytes,
             a.delivered + b.delivered, a.deliveredBytes + b.deliveredBytes,
             a.queued + b.queued, a.transmitting + b.transmitting, a.travelling + b.travelling)
  }

  function Total(perInput: seq<Counters>): Counters {
    if perInput == [] then ZERO else Plus(perInput[0], Total(perInput[1..]))
  }

  /** `outcomes` tells, per finished transmission, whether the packet was lost. */
  datatype State = State(
    c: Config,
    now: int,
    nextEvent: nat,
    admitted: seq<Admission>,
    outcomes: seq<bool>,
    busy: bool,
    doneAt: int,
    flights: seq<Flight>,
    delivered: seq<nat>,
    perInput: seq<Counters>,
    total: Counters)

  function Fresh(inputs: nat): (perInput: seq<Counters>)
    ensures |perInput| == inputs && forall i :: 0 <= i < inputs ==> perInput[i] == ZERO
  {
    if inputs == 0 then [] else [ZERO] + Fresh(inputs - 1)
  }

  function Init(c: Config): State {
    State(c, 0, 0, [], [], false, 0, [], [], Fresh(c.inputs), ZERO)
  }

  /** How many admissions the link has taken. */
  function Taken(s: State): nat {
    |s.outcomes| + if s.busy then 1 else 0
  }

  /** What input `i` still holds of the admissions from index `k` on. */
  function Waiting(admitted: seq<Admission>, k: nat, i: nat): seq<Packet>
    decreases |admitted| - k
  {
    if k >= |admitted| then []
    else if admitted[k].input == i then [Packet(admitted[k].size, admitted[k].marked, k + 1)] + Waiting(admitted, k + 1, i)
    else Waiting(admitted, k + 1, i)
  }

  /** The same change to one input and to the totals. */
  function Counted(s: State, i: nat, change: Counters): State
    requires i < |s.perInput|
  {
    s.(perInput := s.perInput[i := Plus(s.perInput[i], change)], total := Plus(s.total, change))
  }

  // ---------- Steps ----------

  /** The link takes the next admission, whichever input holds it. */
  function Served(s: State): State {
    if s.busy || Taken(s) >= |s.admitted| || s.admitted[Taken(s)].input >= |s.perInput| || s.c.bandwidth == 0 then s
    else
      var a := s.admitted[Taken(s)];
      Counted(s, a.input, ZERO.(queued := -1, transmitting := 1))
      .(busy := true, doneAt := s.now + Duration(a.size, s.c.bandwidth))
  }

  predicate Admits(s: State, i: nat) {
    !s.busy || |Waiting(s.admitted, Taken(s), i)| < s.c.capacity
  }

  predicate Signalled(s: State, i: nat, congested: bool) {
    Admits(s, i) && s.busy && congested
  }

  predicate Accepts(s: State, i: nat, ecn: ECNState, congested: bool) {
    Admits(s, i) && !(Signalled(s, i, congested) && ecn.NotCapable?)
  }

  function Appended(s: State, i: nat, size: nat, ecn: ECNState, signalled: bool): State
    requires i < |s.perInput|
  {
    var mark := signalled && ecn.Capable?;
    Counted(s, i, ZERO.(offered := 1, offeredBytes := size, accepted := 1, acceptedBytes := size, queued := 1,
                        marked := if mark then 1 else 0))
    .(admitted := s.admitted + [Admission(i, size, ecn.AlreadyMarked? || mark)])
  }

  function Transmitted(s: State, i: nat, size: nat, ecn: ECNState, congested: bool): State
    requires i < |s.perInput|
  {
    if Accepts(s, i, ecn, congested) then Served(Appended(s, i, size, ecn, Signalled(s, i, congested)))
    else Counted(s, i, ZERO.(offered := 1, offeredBytes := size, dropped := 1, droppedBytes := size))
  }

  /** Serialization ends: the packet is lost, or travels. */
  function Ended(s: State, lost: bool): State
    requires |s.outcomes| < |s.admitted| && s.admitted[|s.outcomes|].input < |s.perInput|
  {
    var a := s.admitted[|s.outcomes|];
    var change := ZERO.(transmitting := -1, transmittedBytes := a.size);
    var next := Counted(s, a.input, if lost then change.(lost := 1, lostBytes := a.size) else change.(travelling := 1))
      .(busy := false, outcomes := s.outcomes + [lost]);
    if lost then next
    else next.(flights := s.flights + [Flight(|s.outcomes| + 1, s.now + s.c.travel, s.nextEvent)], nextEvent := s.nextEvent + 1)
  }

  function Arrived(s: State, k: nat): State
    requires k < |s.flights| && 1 <= s.flights[k].number <= |s.admitted| && s.admitted[s.flights[k].number - 1].input < |s.perInput|
  {
    var a := s.admitted[s.flights[k].number - 1];
    Counted(s, a.input, ZERO.(travelling := -1, delivered := 1, deliveredBytes := a.size))
    .(flights := s.flights[..k] + s.flights[k + 1..], delivered := s.delivered + [s.flights[k].number])
  }

  datatype Step =
    | Transmit(input: nat, size: nat, ecn: ECNState, congested: bool)
    | Finish(lost: bool)
    | Arrive(flight: nat)
    | Elapse(to: int)

  /** The engine fires the earliest event, and none beyond the end of the experiment. */
  predicate Enabled(s: State, step: Step) {
    match step
    case Transmit(i, size, _, _) =>
      && i < |s.perInput| && |s.admitted| < MAX_UINT64
      && s.c.bandwidth > 0 && Duration(size, s.c.bandwidth) <= MAX_INT64
    case Finish(_) =>
      && s.busy && s.doneAt == s.now && |s.outcomes| < |s.admitted| && s.admitted[|s.outcomes|].input < |s.perInput|
    case Arrive(k) =>
      && k < |s.flights| && s.flights[k].at == s.now
      && 1 <= s.flights[k].number <= |s.admitted| && s.admitted[s.flights[k].number - 1].input < |s.perInput|
      && (forall j :: 0 <= j < |s.flights| && s.flights[j].at == s.now ==> s.flights[k].event <= s.flights[j].event)
    case Elapse(to) =>
      && s.now <= to <= s.c.endTime && (s.busy && s.doneAt <= s.c.endTime ==> to <= s.doneAt)
      && (forall j :: 0 <= j < |s.flights| && s.flights[j].at <= s.c.endTime ==> to <= s.flights[j].at)
  }

  function Next(s: State, step: Step): State {
    if !Enabled(s, step) then s else
      match step
      case Transmit(i, size, ecn, congested) => Transmitted(s, i, size, ecn, congested)
      case Finish(lost) => Served(Ended(s, lost))
      case Arrive(k) => Arrived(s, k)
      case Elapse(to) => s.(now := to)
  }

  function Run(c: Config, steps: seq<Step>): State
    decreases |steps|
  {
    if steps == [] then Init(c) else Next(Run(c, steps[..|steps| - 1]), steps[|steps| - 1])
  }

  // ---------- The invariant ----------

  /** Nothing accepted disappears, and nothing offered is forgotten. */
  predicate Balanced(n: Counters) {
    && n.offered == n.accepted + n.dropped && n.offeredBytes == n.acceptedBytes + n.droppedBytes
    && n.accepted == n.queued + n.transmitting + n.travelling + n.lost + n.delivered
  }

  function InTransmission(busy: bool, admitted: seq<Admission>, finished: nat, i: nat): int {
    if busy && finished < |admitted| && admitted[finished].input == i then 1 else 0
  }

  function Travelling(admitted: seq<Admission>, flights: seq<Flight>, i: nat): nat {
    if flights == [] then 0
    else (if 1 <= flights[0].number <= |admitted| && admitted[flights[0].number - 1].input == i then 1 else 0)
         + Travelling(admitted, flights[1..], i)
  }

  /** The current counters are what the inputs, the link and the flights really hold. */
  ghost predicate Exact(s: State) {
    forall i: nat :: i < |s.perInput| ==>
      && Balanced(s.perInput[i])
      && s.perInput[i].queued == |Waiting(s.admitted, Taken(s), i)|
      && s.perInput[i].transmitting == InTransmission(s.busy, s.admitted, |s.outcomes|, i)
      && s.perInput[i].travelling == Travelling(s.admitted, s.flights, i)
  }

  /** The numbers of the transmissions that were not lost, in order. */
  function Survivors(outcomes: seq<bool>): seq<nat> {
    if outcomes == [] then []
    else if outcomes[|outcomes| - 1] then Survivors(outcomes[..|outcomes| - 1])
    else Survivors(outcomes[..|outcomes| - 1]) + [|outcomes|]
  }

  function Numbers(flights: seq<Flight>): seq<nat> {
    seq(|flights|, i requires 0 <= i < |flights| => flights[i].number)
  }

  /** A constant travel time keeps arrivals in the order of their transmissions. */
  ghost predicate InOrder(flights: seq<Flight>, nextEvent: nat, latest: int, numbers: nat) {
    && (forall i :: 0 <= i < |flights| ==> flights[i].event < nextEvent && flights[i].at <= latest && 1 <= flights[i].number <= numbers)
    && (forall i, j :: 0 <= i < j < |flights| ==> flights[i].at <= flights[j].at && flights[i].event < flights[j].event)
  }

  ghost predicate Inv(s: State) {
    && s.c.bandwidth > 0 && |s.perInput| == s.c.inputs && s.now <= s.c.endTime
    && (forall k :: 0 <= k < |s.admitted| ==> s.admitted[k].input < |s.perInput|)
    && Taken(s) <= |s.admitted|
    && (!s.busy ==> Taken(s) == |s.admitted|)
    && Exact(s) && s.total == Total(s.perInput)
    && s.delivered + Numbers(s.flights) == Survivors(s.outcomes)
    && InOrder(s.flights, s.nextEvent, s.now + s.c.travel, |s.outcomes|)
    && (forall i :: 0 <= i < |s.flights| && s.flights[i].at <= s.c.endTime ==> s.now <= s.flights[i].at)
    && (forall i: nat :: i < |s.perInput| ==> |Waiting(s.admitted, Taken(s), i)| <= s.c.capacity)
  }

  // ---------- Queues ----------

  lemma {:induction false} WaitingAppend(admitted: seq<Admission>, a: Admission, k: nat, i: nat)
    requires k <= |admitted|
    ensures Waiting(admitted + [a], k, i) ==
      Waiting(admitted, k, i) + if a.input == i then [Packet(a.size, a.marked, |admitted| + 1)] else []
    decreases |admitted| - k
  {
    if k < |admitted| {
      WaitingAppend(admitted, a, k + 1, i);
    } else {
      assert Waiting(admitted + [a], k + 1, i) == [];
    }
  }

  lemma {:induction false} WaitingAfter(admitted: seq<Admission>, k: nat, i: nat)
    ensures forall j :: 0 <= j < |Waiting(admitted, k, i)| ==> k < Waiting(admitted, k, i)[j].number
    decreases |admitted| - k
  {
    if k < |admitted| {
      WaitingAfter(admitted, k + 1, i);
    }
  }

  /** The next admission heads its input's queue, and every other head is younger. */
  lemma NextHead(admitted: seq<Admission>, k: nat, i: nat)
    requires k < |admitted|
    ensures var queue := Waiting(admitted, k, i);
      if admitted[k].input == i then
        && queue != [] && queue[0] == Packet(admitted[k].size, admitted[k].marked, k + 1)
        && Waiting(admitted, k + 1, i) == queue[1..]
      else Waiting(admitted, k + 1, i) == queue && (queue != [] ==> k + 1 < queue[0].number)
  {
    WaitingAfter(admitted, k + 1, i);
  }

  lemma WaitingNone(admitted: seq<Admission>, k: nat, i: nat)
    requires k >= |admitted|
    ensures Waiting(admitted, k, i) == []
  {
  }

  lemma {:induction false} TotalCounted(perInput: seq<Counters>, i: nat, change: Counters)
    requires i < |perInput|
    ensures Total(perInput[i := Plus(perInput[i], change)]) == Plus(Total(perInput), change)
    decreases i
  {
    var after := perInput[i := Plus(perInput[i], change)];
    if i == 0 {
      assert after[1..] == perInput[1..];
    } else {
      assert after[1..] == perInput[1..][i - 1 := Plus(perInput[i], change)];
      TotalCounted(perInput[1..], i - 1, change);
    }
  }

  lemma {:induction false} TravellingAppend(admitted: seq<Admission>, flights: seq<Flight>, f: Flight, i: nat)
    ensures Travelling(admitted, flights + [f], i) == Travelling(admitted, flights, i) + Travelling(admitted, [f], i)
    decreases |flights|
  {
    if flights == [] {
      assert [] + [f] == [f];
    } else {
      assert (flights + [f])[1..] == flights[1..] + [f];
      TravellingAppend(admitted, flights[1..], f, i);
    }
  }

  lemma {:induction false} TravellingMore(admitted: seq<Admission>, a: Admission, flights: seq<Flight>, i: nat)
    requires forall k :: 0 <= k < |flights| ==> flights[k].number <= |admitted|
    ensures Travelling(admitted + [a], flights, i) == Travelling(admitted, flights, i)
    decreases |flights|
  {
    if flights != [] {
      TravellingMore(admitted, a, flights[1..], i);
    }
  }

  // ---------- Steps keep it ----------

  lemma CountedTotal(s: State, i: nat, change: Counters)
    requires i < |s.perInput| && s.total == Total(s.perInput)
    ensures Counted(s, i, change).total == Total(Counted(s, i, change).perInput)
  {
    TotalCounted(s.perInput, i, change);
  }

  /** The parts of the invariant that a start leaves alone. */
  ghost predicate Carried(s: State) {
    && s.c.bandwidth > 0 && |s.perInput| == s.c.inputs && s.now <= s.c.endTime
    && (forall k :: 0 <= k < |s.admitted| ==> s.admitted[k].input < |s.perInput|)
    && Taken(s) <= |s.admitted|
    && Exact(s) && s.total == Total(s.perInput)
    && s.delivered + Numbers(s.flights) == Survivors(s.outcomes)
    && InOrder(s.flights, s.nextEvent, s.now + s.c.travel, |s.outcomes|)
    && (forall i :: 0 <= i < |s.flights| && s.flights[i].at <= s.c.endTime ==> s.now <= s.flights[i].at)
  }

  ghost predicate WithinCapacity(s: State) {
    forall i: nat :: i < |s.perInput| ==> |Waiting(s.admitted, Taken(s), i)| <= s.c.capacity
  }

  lemma ServedExact(s: State)
    requires Carried(s) && !s.busy && Taken(s) < |s.admitted|
    ensures Exact(Served(s))
  {
    var t := Served(s);
    forall i: nat | i < |t.perInput|
      ensures Balanced(t.perInput[i]) && t.perInput[i].queued == |Waiting(t.admitted, Taken(t), i)|
      ensures t.perInput[i].transmitting == InTransmission(t.busy, t.admitted, |t.outcomes|, i)
      ensures t.perInput[i].travelling == Travelling(t.admitted, t.flights, i)
    {
      NextHead(s.admitted, Taken(s), i);
      hide Waiting, Travelling;
    }
  }

  /** Serving the next admission empties the inputs or occupies the link. */
  lemma ServedKeeps(s: State)
    requires Carried(s)
    ensures Carried(Served(s)) && (s.busy ==> Served(s) == s)
    ensures !Served(s).busy ==> Taken(Served(s)) == |s.admitted|
    ensures WithinCapacity(s) ==> WithinCapacity(Served(s))
  {
    if !s.busy && Taken(s) < |s.admitted| {
      ServedExact(s);
      var a := s.admitted[Taken(s)];
      CountedTotal(s, a.input, ZERO.(queued := -1, transmitting := 1));
      forall i: nat | i < |s.perInput|
        ensures |Waiting(s.admitted, Taken(s) + 1, i)| <= |Waiting(s.admitted, Taken(s), i)|
      {
        NextHead(s.admitted, Taken(s), i);
      }
      hide Exact, Total, InOrder, Waiting, Survivors, Numbers, Plus;
    }
  }

  lemma AppendedExact(s: State, i: nat, size: nat, ecn: ECNState, signalled: bool)
    requires Carried(s) && i < |s.perInput|
    ensures Exact(Appended(s, i, size, ecn, signalled))
  {
    var t := Appended(s, i, size, ecn, signalled);
    var a := t.admitted[|s.admitted|];
    forall j: nat | j < |t.perInput|
      ensures Balanced(t.perInput[j]) && t.perInput[j].queued == |Waiting(t.admitted, Taken(t), j)|
      ensures t.perInput[j].transmitting == InTransmission(t.busy, t.admitted, |t.outcomes|, j)
      ensures t.perInput[j].travelling == Travelling(t.admitted, t.flights, j)
    {
      WaitingAppend(s.admitted, a, Taken(s), j);
      TravellingMore(s.admitted, a, s.flights, j);
      hide Waiting, Travelling;
    }
  }

  lemma AppendedKeeps(s: State, i: nat, size: nat, ecn: ECNState, signalled: bool)
    requires Carried(s) && i < |s.perInput|
    ensures Carried(Appended(s, i, size, ecn, signalled))
  {
    AppendedExact(s, i, size, ecn, signalled);
    var mark := signalled && ecn.Capable?;
    CountedTotal(s, i, ZERO.(offered := 1, offeredBytes := size, accepted := 1, acceptedBytes := size, queued := 1,
                             marked := if mark then 1 else 0));
    hide Exact, Total, InOrder, Waiting, Survivors, Numbers, Plus;
  }

  /** A packet that waits is counted against its input; one that starts at once is not. */
  lemma AcceptedFits(s: State, i: nat, size: nat, ecn: ECNState, congested: bool)
    requires Inv(s) && i < |s.perInput| && Accepts(s, i, ecn, congested)
    ensures WithinCapacity(Served(Appended(s, i, size, ecn, Signalled(s, i, congested))))
  {
    var t := Appended(s, i, size, ecn, Signalled(s, i, congested));
    AppendedKeeps(s, i, size, ecn, Signalled(s, i, congested));
    ServedKeeps(t);
    forall j: nat | j < |s.perInput|
      ensures |Waiting(t.admitted, Taken(Served(t)), j)| <= s.c.capacity
    {
      hide Exact, Total, InOrder, Survivors, Numbers, Plus;
      if s.busy {
        WaitingAppend(s.admitted, t.admitted[|s.admitted|], Taken(s), j);
      } else {
        WaitingNone(t.admitted, Taken(Served(t)), j);
      }
    }
  }

  lemma AcceptedKeeps(s: State, i: nat, size: nat, ecn: ECNState, congested: bool)
    requires Inv(s) && i < |s.perInput| && Accepts(s, i, ecn, congested)
    ensures Inv(Served(Appended(s, i, size, ecn, Signalled(s, i, congested))))
  {
    assert Carried(s);
    hide Carried, WithinCapacity, Inv;
    var t := Appended(s, i, size, ecn, Signalled(s, i, congested));
    AcceptedFits(s, i, size, ecn, congested);
    AppendedKeeps(s, i, size, ecn, Signalled(s, i, congested));
    hide Appended, Accepts;
    ServedKeeps(t);
    CarriedInv(Served(t));
  }

  lemma DroppedKeeps(s: State, i: nat, size: nat)
    requires Inv(s) && i < |s.perInput|
    ensures Inv(Counted(s, i, ZERO.(offered := 1, offeredBytes := size, dropped := 1, droppedBytes := size)))
  {
    hide Exact, Total, InOrder, Waiting, Survivors, Numbers, Plus;
    CountedTotal(s, i, ZERO.(offered := 1, offeredBytes := size, dropped := 1, droppedBytes := size));
    DroppedExact(s, i, size);
  }

  lemma TransmitKeeps(s: State, i: nat, size: nat, ecn: ECNState, congested: bool)
    requires Inv(s) && i < |s.perInput|
    ensures Inv(Transmitted(s, i, size, ecn, congested)) && Transmitted(s, i, size, ecn, congested).c == s.c
  {
    hide Inv, Accepts, Signalled, Plus;
    if Accepts(s, i, ecn, congested) {
      AcceptedKeeps(s, i, size, ecn, congested);
    } else {
      DroppedKeeps(s, i, size);
    }
  }

  lemma DroppedExact(s: State, i: nat, size: nat)
    requires Exact(s) && i < |s.perInput|
    ensures Exact(Counted(s, i, ZERO.(offered := 1, offeredBytes := size, dropped := 1, droppedBytes := size)))
  {
    hide Waiting, Travelling;
  }

  lemma EndedExact(s: State, lost: bool)
    requires Carried(s) && s.busy
    ensures Exact(Ended(s, lost))
  {
    var t := Ended(s, lost);
    var f := Flight(|s.outcomes| + 1, s.now + s.c.travel, s.nextEvent);
    forall j: nat | j < |t.perInput|
      ensures Balanced(t.perInput[j]) && t.perInput[j].queued == |Waiting(t.admitted, Taken(t), j)|
      ensures t.perInput[j].transmitting == InTransmission(t.busy, t.admitted, |t.outcomes|, j)
      ensures t.perInput[j].travelling == Travelling(t.admitted, t.flights, j)
    {
      TravellingAppend(s.admitted, s.flights, f, j);
      OneFlight(s.admitted, f, j);
      hide Waiting, Travelling;
    }
  }

  lemma OneFlight(admitted: seq<Admission>, f: Flight, i: nat)
    ensures Travelling(admitted, [f], i) == if 1 <= f.number <= |admitted| && admitted[f.number - 1].input == i then 1 else 0
  {
    assert [f][1..] == [];
  }

  lemma EndedOrder(s: State, lost: bool)
    requires Carried(s) && s.busy
    ensures var t := Ended(s, lost);
      t.delivered + Numbers(t.flights) == Survivors(t.outcomes) && InOrder(t.flights, t.nextEvent, t.now + t.c.travel, |t.outcomes|)
  {
    var t := Ended(s, lost);
    assert t.outcomes[..|s.outcomes|] == s.outcomes;
    if !lost {
      var number := |s.outcomes| + 1;
      assert Numbers(t.flights) == Numbers(s.flights) + [number];
      assert t.delivered + Numbers(t.flights) == s.delivered + Numbers(s.flights) + [number];
    }
  }

  lemma EndedKeeps(s: State, lost: bool)
    requires Carried(s) && s.busy
    ensures Carried(Ended(s, lost)) && (WithinCapacity(s) ==> WithinCapacity(Ended(s, lost)))
  {
    EndedExact(s, lost);
    EndedOrder(s, lost);
    var a := s.admitted[|s.outcomes|];
    var change := ZERO.(transmitting := -1, transmittedBytes := a.size);
    CountedTotal(s, a.input, if lost then change.(lost := 1, lostBytes := a.size) else change.(travelling := 1));
    hide Exact, Total, InOrder, Waiting, Survivors, Numbers, Plus;
  }

  lemma FinishKeeps(s: State, lost: bool)
    requires Inv(s) && s.busy
    ensures Inv(Served(Ended(s, lost))) && Served(Ended(s, lost)).c == s.c
  {
    assert Carried(s) && WithinCapacity(s);
    hide Carried, WithinCapacity;
    EndedKeeps(s, lost);
    ServedKeeps(Ended(s, lost));
    CarriedInv(Served(Ended(s, lost)));
  }

  lemma CarriedInv(s: State)
    requires Carried(s) && WithinCapacity(s) && (!s.busy ==> Taken(s) == |s.admitted|)
    ensures Inv(s)
  {
    hide Exact, Total, InOrder, Waiting, Survivors, Numbers;
  }

  /** The earliest arrival event belongs to the oldest flight. */
  lemma OldestArrives(s: State, k: nat)
    requires Inv(s) && Enabled(s, Arrive(k))
    ensures k == 0
  {
    hide Exact, Total, Survivors, Numbers, Waiting;
    var first, chosen := s.flights[0], s.flights[k];
    assert k == 0 || (first.at <= chosen.at && first.event < chosen.event);
    assert first.at == s.now ==> chosen.event <= first.event;
  }

  lemma ArriveKeeps(s: State, k: nat)
    requires Inv(s) && Enabled(s, Arrive(k))
    ensures Inv(Arrived(s, k)) && Arrived(s, k).c == s.c
  {
    OldestArrives(s, k);
    hide Inv;
    OldestArrivedKeeps(s);
  }

  lemma OldestArrivedKeeps(s: State)
    requires Inv(s) && Enabled(s, Arrive(0))
    ensures Inv(Arrived(s, 0))
  {
    hide Exact, Total, Waiting, Survivors, Numbers, Plus, InOrder;
    ArrivedExact(s);
    ArrivedOrder(s);
    ArrivedTotal(s);
  }

  lemma ArrivedTotal(s: State)
    requires Inv(s) && Enabled(s, Arrive(0))
    ensures Arrived(s, 0).total == Total(Arrived(s, 0).perInput)
  {
    hide Exact, Total, Waiting, Survivors, Numbers, InOrder, Plus;
    var a := s.admitted[s.flights[0].number - 1];
    CountedTotal(s, a.input, ZERO.(travelling := -1, delivered := 1, deliveredBytes := a.size));
  }

  lemma FirstArrives(delivered: seq<nat>, flights: seq<Flight>)
    requires flights != []
    ensures (delivered + [flights[0].number]) + Numbers(flights[1..]) == delivered + Numbers(flights)
  {
    assert Numbers(flights) == [flights[0].number] + Numbers(flights[1..]);
  }

  lemma RestInOrder(flights: seq<Flight>, nextEvent: nat, latest: int, numbers: nat)
    requires flights != [] && InOrder(flights, nextEvent, latest, numbers)
    ensures InOrder(flights[1..], nextEvent, latest, numbers)
  {
  }

  lemma ArrivedOrder(s: State)
    requires Inv(s) && Enabled(s, Arrive(0))
    ensures var t := Arrived(s, 0);
      && t.flights == s.flights[1..]
      && t.delivered + Numbers(t.flights) == Survivors(t.outcomes)
      && InOrder(t.flights, t.nextEvent, t.now + t.c.travel, |t.outcomes|)
  {
    hide Exact, Total, Waiting, Survivors, Plus, Numbers, InOrder;
    assert s.flights[..0] + s.flights[1..] == s.flights[1..];
    FirstArrives(s.delivered, s.flights);
    RestInOrder(s.flights, s.nextEvent, s.now + s.c.travel, |s.outcomes|);
  }

  lemma TravellingFirst(admitted: seq<Admission>, flights: seq<Flight>, i: nat)
    requires flights != [] && 1 <= flights[0].number <= |admitted|
    ensures Travelling(admitted, flights[1..], i) ==
      Travelling(admitted, flights, i) - if admitted[flights[0].number - 1].input == i then 1 else 0
  {
  }

  lemma ArrivedExact(s: State)
    requires Inv(s) && Enabled(s, Arrive(0))
    ensures Exact(Arrived(s, 0))
  {
    hide Waiting, Travelling, Total, Survivors, Numbers, InOrder;
    var t := Arrived(s, 0);
    assert s.flights[..0] + s.flights[1..] == s.flights[1..];
    forall j: nat | j < |t.perInput|
      ensures Balanced(t.perInput[j]) && t.perInput[j].queued == |Waiting(t.admitted, Taken(t), j)|
      ensures t.perInput[j].transmitting == InTransmission(t.busy, t.admitted, |t.outcomes|, j)
      ensures t.perInput[j].travelling == Travelling(t.admitted, t.flights, j)
    {
      TravellingFirst(s.admitted, s.flights, j);
    }
  }

  lemma NextKeeps(s: State, step: Step)
    requires Inv(s)
    ensures Inv(Next(s, step)) && Next(s, step).c == s.c
  {
    hide Inv, Waiting, Plus, Transmitted, Served, Ended, Arrived;
    if Enabled(s, step) {
      match step
      case Transmit(i, size, ecn, congested) => TransmitKeeps(s, i, size, ecn, congested);
      case Finish(lost) => FinishKeeps(s, lost);
      case Arrive(k) => ArriveKeeps(s, k);
      case Elapse(to) => ElapseKeeps(s, to);
    }
  }

  lemma ElapseKeeps(s: State, to: int)
    requires Inv(s) && Enabled(s, Elapse(to))
    ensures Inv(s.(now := to))
  {
    ElapsedExact(s, to);
    hide Exact, Total, Waiting, Survivors, Numbers, Plus;
  }

  lemma ElapsedExact(s: State, to: int)
    requires Exact(s)
    ensures Exact(s.(now := to))
  {
  }

  lemma {:induction false} ZeroTotal(perInput: seq<Counters>)
    requires forall i :: 0 <= i < |perInput| ==> perInput[i] == ZERO
    ensures Total(perInput) == ZERO
    decreases |perInput|
  {
    ZeroPlusZero();
    hide Plus, ZERO;
    if perInput != [] {
      ZeroTotal(perInput[1..]);
    }
  }

  lemma ZeroPlusZero()
    ensures Plus(ZERO, ZERO) == ZERO
  {
  }

  lemma NothingYet(admitted: seq<Admission>, flights: seq<Flight>, i: nat)
    requires admitted == [] && flights == []
    ensures |Waiting(admitted, 0, i)| == 0 && Travelling(admitted, flights, i) == 0
  {
  }

  ghost predicate Untouched(s: State) {
    && s.c.bandwidth > 0 && s.now == 0 <= s.c.endTime && !s.busy && |s.perInput| == s.c.inputs
    && s.admitted == [] && s.outcomes == [] && s.flights == [] && s.delivered == [] && s.total == ZERO
    && forall i :: 0 <= i < |s.perInput| ==> s.perInput[i] == ZERO
  }

  lemma UntouchedExact(s: State)
    requires Untouched(s)
    ensures Exact(s) && WithinCapacity(s)
  {
    hide Waiting, Travelling;
    forall i: nat | i < |s.perInput|
      ensures |Waiting(s.admitted, Taken(s), i)| == 0 && Travelling(s.admitted, s.flights, i) == 0
    {
      NothingYet(s.admitted, s.flights, i);
    }
  }

  lemma NoSurvivors(outcomes: seq<bool>, flights: seq<Flight>)
    requires |outcomes| == 0 && |flights| == 0
    ensures Survivors(outcomes) == [] == Numbers(flights)
  {
  }

  lemma UntouchedInv(s: State)
    requires Untouched(s)
    ensures Inv(s)
  {
    hide Exact, Total, Waiting, Survivors, Numbers, Travelling, Plus;
    UntouchedExact(s);
    ZeroTotal(s.perInput);
    NoSurvivors(s.outcomes, s.flights);
  }

  lemma InitInv(c: Config)
    requires c.bandwidth > 0 && c.endTime >= 0
    ensures Inv(Init(c))
  {
    hide Inv;
    UntouchedInv(Init(c));
  }

  lemma {:induction false} RunInv(c: Config, steps: seq<Step>)
    requires c.bandwidth > 0 && c.endTime >= 0
    ensures Inv(Run(c, steps)) && Run(c, steps).c == c
    decreases |steps|
  {
    if steps == [] {
      InitInv(c);
    } else {
      hide Inv, Next, Init;
      RunInv(c, steps[..|steps| - 1]);
      NextKeeps(Run(c, steps[..|steps| - 1]), steps[|steps| - 1]);
    }
  }

  // ---------- The main results ----------

  /** Across all inputs the link serves admissions in their global order, delivers the survivors
      in that order, and is never free while any input holds a packet. */
  lemma OneGlobalFIFO(c: Config, steps: seq<Step>)
    requires c.bandwidth > 0 && c.endTime >= 0
    ensures var s := Run(c, steps);
      && s.delivered + Numbers(s.flights) == Survivors(s.outcomes)
      && Taken(s) <= |s.admitted|
      && (!s.busy ==> forall i: nat :: i < c.inputs ==> Waiting(s.admitted, Taken(s), i) == [])
      && (forall i: nat :: i < c.inputs ==> |Waiting(s.admitted, Taken(s), i)| <= c.capacity)
  {
    RunInv(c, steps);
    hide Run, Exact, Total, InOrder, Survivors, Numbers;
  }

  /** The survivors' numbers increase: delivery keeps admission order. */
  lemma {:induction false} SurvivorsOrdered(outcomes: seq<bool>)
    ensures forall i :: 0 <= i < |Survivors(outcomes)| ==> 1 <= Survivors(outcomes)[i] <= |outcomes|
    ensures forall i, j :: 0 <= i < j < |Survivors(outcomes)| ==> Survivors(outcomes)[i] < Survivors(outcomes)[j]
    ensures forall k :: 1 <= k <= |outcomes| ==> (k in Survivors(outcomes) <==> !outcomes[k - 1])
    decreases |outcomes|
  {
    if outcomes != [] {
      SurvivorsOrdered(outcomes[..|outcomes| - 1]);
    }
  }

  /** Every input accounts for each packet it accepted, its current counters are exact, and the
      aggregate counters are the sums over the inputs. */
  lemma InputsBalance(c: Config, steps: seq<Step>)
    requires c.bandwidth > 0 && c.endTime >= 0
    ensures var s := Run(c, steps);
      && |s.perInput| == c.inputs && s.total == Total(s.perInput)
      && forall i: nat :: i < c.inputs ==>
        && s.perInput[i].accepted == s.perInput[i].queued + s.perInput[i].transmitting + s.perInput[i].travelling
                                     + s.perInput[i].lost + s.perInput[i].delivered
        && s.perInput[i].offered == s.perInput[i].accepted + s.perInput[i].dropped
        && s.perInput[i].queued == |Waiting(s.admitted, Taken(s), i)|
        && s.perInput[i].transmitting == InTransmission(s.busy, s.admitted, |s.outcomes|, i)
        && s.perInput[i].travelling == Travelling(s.admitted, s.flights, i)
  {
    RunInv(c, steps);
    hide Run, Total, InOrder, Survivors, Numbers, Waiting, Travelling;
  }
}
