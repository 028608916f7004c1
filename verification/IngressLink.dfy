/** The shared link as the source keeps it: one queue per input, a scan for the oldest head,
    and loss told apart by the link's own counter. Proved equal to one global FIFO. */
module IngressLink {
  import opened Basics
  import opened Serialization
  import opened Ingress

  datatype Input = Input(queue: seq<Packet>, stats: Counters)

  /** An arrival event with what its callback captured. */
  datatype Arrival = Arrival(flight: Flight, input: nat, size: nat)

  /** The counters an input reports: its queue length is counted, not stored. */
  function Reported(input: Input): Counters {
    input.stats.(queued := |input.queue|)
  }

  function AllReported(inputs: seq<Input>): seq<Counters> {
    seq(|inputs|, i requires 0 <= i < |inputs| => Reported(inputs[i]))
  }

  function Flights(arrivals: seq<Arrival>): seq<Flight> {
    seq(|arrivals|, k requires 0 <= k < |arrivals| => arrivals[k].flight)
  }

  /** Admissions are counted by the inputs' owner, physical progress by the link. */
  function Combined(admissions: Counters, link: Counters): Counters {
    admissions.(transmittedBytes := link.transmittedBytes, lost := link.lost, lostBytes := link.lostBytes,
                delivered := link.delivered, deliveredBytes := link.deliveredBytes,
                transmitting := link.transmitting, travelling := link.travelling)
  }

  /** What the end of one transmission counts, for the link and for its input. */
  function Change(bytes: nat, lost: bool): Counters {
    ZERO.(transmitting := -1, transmittedBytes := bytes, lost := if lost then 1 else 0,
          lostBytes := if lost then bytes else 0, travelling := if lost then 0 else 1)
  }

  lemma ChangeReported(input: Input, admissions: Counters, link: Counters, change: Counters)
    requires exists bytes, lost :: change == Change(bytes, lost)
    ensures Reported(input.(stats := Plus(input.stats, change))) == Plus(Reported(input), change)
    ensures Combined(admissions, Plus(link, change)) == Plus(Combined(admissions, link), change)
  {
  }

  ghost predicate Queued(inputs: seq<Input>, admitted: seq<Admission>, taken: nat) {
    forall i: nat :: i < |inputs| ==> inputs[i].queue == Waiting(admitted, taken, i)
  }

  ghost predicate Captured(arrivals: seq<Arrival>, admitted: seq<Admission>) {
    forall k :: 0 <= k < |arrivals| ==>
      && 1 <= arrivals[k].flight.number <= |admitted|
      && admitted[arrivals[k].flight.number - 1].input == arrivals[k].input
      && admitted[arrivals[k].flight.number - 1].size == arrivals[k].size
  }

  lemma ReportedOne(inputs: seq<Input>, i: nat, input: Input)
    requires i < |inputs|
    ensures |AllReported(inputs)| == |inputs| && AllReported(inputs)[i] == Reported(inputs[i])
    ensures AllReported(inputs[i := input]) == AllReported(inputs)[i := Reported(input)]
  {
  }

  /** Counters may change without touching any queue. */
  lemma QueuedSame(inputs: seq<Input>, admitted: seq<Admission>, taken: nat, i: nat, input: Input)
    requires i < |inputs| && input.queue == inputs[i].queue && Queued(inputs, admitted, taken)
    ensures Queued(inputs[i := input], admitted, taken)
  {
    hide Waiting;
  }

  /** The next admission leaves the queue of its input. */
  lemma QueuedTake(inputs: seq<Input>, admitted: seq<Admission>, k: nat, input: Input)
    requires Queued(inputs, admitted, k) && k < |admitted| && admitted[k].input < |inputs|
    ensures var i := admitted[k].input;
      && inputs[i].queue != [] && inputs[i].queue[0] == Packet(admitted[k].size, admitted[k].marked, k + 1)
      && (input.queue == inputs[i].queue[1..] ==> Queued(inputs[i := input], admitted, k + 1))
  {
    forall i: nat | i < |inputs|
      ensures Waiting(admitted, k + 1, i) == if i == admitted[k].input then inputs[i].queue[1..] else inputs[i].queue
    {
      NextHead(admitted, k, i);
    }
    NextHead(admitted, k, admitted[k].input);
  }

  lemma QueuedAppend(inputs: seq<Input>, admitted: seq<Admission>, k: nat, i: nat, input: Input, a: Admission)
    requires Queued(inputs, admitted, k) && k <= |admitted| && i < |inputs| && a.input == i
    requires input.queue == inputs[i].queue + [Packet(a.size, a.marked, |admitted| + 1)]
    ensures Queued(inputs[i := input], admitted + [a], k)
  {
    forall j: nat | j < |inputs|
      ensures Waiting(admitted + [a], k, j) == if j == i then input.queue else inputs[j].queue
    {
      WaitingAppend(admitted, a, k, j);
    }
  }

  class SharedLink {
    const c: Config
    var now: int
    var nextEvent: nat
    var inputs: seq<Input>
    var nextSequence: nat
    var stats: Counters
    var transmitting: bool
    var doneAt: int
    var transmittingInput: nat
    var transmittingBytes: nat
    var transmittingNumber: nat
    var lossesBefore: int
    var link: Counters
    var arrivals: seq<Arrival>
    ghost var admitted: seq<Admission>
    ghost var outcomes: seq<bool>
    ghost var delivered: seq<nat>

    ghost function Value(): State
      reads this
    {
      State(c, now, nextEvent, admitted, outcomes, transmitting, doneAt, Flights(arrivals), delivered,
            AllReported(inputs), Combined(stats, link))
    }

    /** What also holds inside one callback. */
    ghost predicate Serving()
      reads this
    {
      Coherent() && Carried(Value())
    }

    /** What holds between two events. */
    ghost predicate Valid()
      reads this
    {
      Coherent() && Inv(Value())
    }

    lemma ServingNow()
      requires Valid()
      ensures Serving()
    {
      hide Queued, Captured, AllReported, Exact, Total, InOrder, Survivors, Numbers;
    }

    /** Each input holds what it has of the admissions, and the link knows whose packet it sends. */
    ghost predicate Coherent()
      reads this
    {
      && nextSequence == |admitted| && |inputs| == c.inputs
      && Queued(inputs, admitted, Taken(Value())) && Captured(arrivals, admitted)
      && (transmitting ==>
            && |outcomes| < |admitted| && transmittingInput < |inputs|
            && transmittingInput == admitted[|outcomes|].input && transmittingBytes == admitted[|outcomes|].size
            && transmittingNumber == |outcomes| + 1 && lossesBefore == link.lost)
    }

    constructor (c: Config)
      requires c.bandwidth > 0 && c.endTime >= 0
      ensures Valid() && Value() == Init(c)
    {
      hide Inv;
      this.c, now, nextEvent, nextSequence := c, 0, 0, 0;
      inputs := seq(c.inputs, _ => Input([], ZERO));
      stats, link, transmitting, doneAt := ZERO, ZERO, false, 0;
      transmittingInput, transmittingBytes, transmittingNumber, lossesBefore, arrivals := 0, 0, 0, 0, [];
      admitted, outcomes, delivered := [], [], [];
      new;
      assert AllReported(inputs) == Fresh(c.inputs);
      assert Coherent();
      assert Value() == Init(c);
      InitInv(c);
    }

    /** Scans the inputs for the oldest waiting head. */
    method Oldest() returns (found: bool, oldest: nat)
      requires Serving()
      ensures found == (Taken(Value()) < |admitted|)
      ensures found ==> oldest == admitted[Taken(Value())].input && oldest < |inputs| && inputs[oldest].queue != []
    {
      found, oldest := false, 0;
      var i: nat := 0;
      while i < |inputs|
        invariant i <= |inputs|
        invariant !found ==> forall j: nat :: j < i ==> inputs[j].queue == []
        invariant found ==> oldest < i && inputs[oldest].queue != []
        invariant found ==> forall j: nat :: j < i && inputs[j].queue != [] ==> inputs[oldest].queue[0].number <= inputs[j].queue[0].number
      {
        if |inputs[i].queue| > 0 {
          if !found || inputs[i].queue[0].number < inputs[oldest].queue[0].number {
            found, oldest := true, i;
          }
        }
        i := i + 1;
      }
      var k := Taken(Value());
      if k < |admitted| {
        NextHead(admitted, k, admitted[k].input);
        NextHead(admitted, k, oldest);
      }
    }

    /** One packet goes on an idle link: the next admission, wherever it waits. */
    method Dispatch()
      requires Serving()
      modifies this
      ensures Coherent() && Value() == Served(old(Value()))
    {
      if transmitting {
        return;
      }
      var found, oldest := Oldest();
      if !found {
        return;
      }
      StartOldest(oldest);
    }

    method StartOldest(oldest: nat)
      requires Serving() && !transmitting
      requires Taken(Value()) < |admitted| && oldest == admitted[Taken(Value())].input && oldest < |inputs| && inputs[oldest].queue != []
      modifies this
      ensures Coherent() && Value() == Served(old(Value()))
    {
      hide Queued, AllReported, Waiting, Exact, Total, InOrder, Survivors, Numbers, Captured, Duration;
      var packet := inputs[oldest].queue[0];
      var input := inputs[oldest];
      var after := Input(input.queue[1..], input.stats.(transmitting := input.stats.transmitting + 1));
      ghost var k := Taken(Value());
      QueuedTake(inputs, admitted, k, after);
      ReportedOne(inputs, oldest, after);
      transmittingInput, transmittingBytes, transmittingNumber, lossesBefore := oldest, packet.size, packet.number, link.lost;
      inputs := inputs[oldest := after];
      link := link.(transmitting := link.transmitting + 1);
      transmitting, doneAt := true, now + Duration(packet.size, c.bandwidth);
      stats := stats.(queued := stats.queued - 1);
    }

    /** Admits a packet, signalling congestion when it must wait, or drops it. */
    method TransmitECN(i: nat, size: nat, ecn: ECNState, congested: bool) returns (accepted: bool)
      requires Valid() && i < |inputs|
      modifies this
      ensures Valid() && Value() == Transmitted(old(Value()), i, size, ecn, congested)
      ensures accepted <==> !old(transmitting) || (|old(inputs)[i].queue| < c.capacity && !(congested && ecn == NotCapable))
    {
      TransmitKeeps(Value(), i, size, ecn, congested);
      ServingNow();
      hide Inv;
      var canStartNow := !transmitting;
      var queueFull := |inputs[i].queue| >= c.capacity;
      var admits := canStartNow || !queueFull;
      var selected := admits && !canStartNow && congested;
      if !admits || (selected && ecn.NotCapable?) {
        Drop(i, size);
        return false;
      }
      AppendedKeeps(Value(), i, size, ecn, selected);
      hide Carried, Queued, Captured, AllReported, Appended, Served;
      Append(i, size, ecn, selected);
      Dispatch();
      return true;
    }

    method Drop(i: nat, size: nat)
      requires Coherent() && i < |inputs|
      modifies this
      ensures Coherent()
      ensures Value() == Counted(old(Value()), i, ZERO.(offered := 1, offeredBytes := size, dropped := 1, droppedBytes := size))
    {
      var input := inputs[i];
      var after := input.(stats := input.stats.(
        offered := input.stats.offered + 1, offeredBytes := input.stats.offeredBytes + size,
        dropped := input.stats.dropped + 1, droppedBytes := input.stats.droppedBytes + size));
      ReportedOne(inputs, i, after);
      hide AllReported, Waiting, Captured;
      inputs := inputs[i := after];
      stats := stats.(offered := stats.offered + 1, offeredBytes := stats.offeredBytes + size,
                      dropped := stats.dropped + 1, droppedBytes := stats.droppedBytes + size);
    }

    method Append(i: nat, size: nat, ecn: ECNState, selected: bool)
      requires Coherent() && Taken(Value()) <= |admitted| && i < |inputs|
      modifies this
      ensures Coherent() && Value() == Appended(old(Value()), i, size, ecn, selected)
    {
      hide Queued, AllReported, Waiting, Exact, Total, InOrder, Survivors, Numbers;
      var mark := selected && ecn.Capable?;
      var one := if mark then 1 else 0;
      var input := inputs[i];
      nextSequence := nextSequence + 1;
      var packet := Packet(size, ecn.AlreadyMarked? || mark, nextSequence);
      ghost var a := Admission(i, size, ecn.AlreadyMarked? || mark);
      var after := Input(input.queue + [packet], input.stats.(
        offered := input.stats.offered + 1, offeredBytes := input.stats.offeredBytes + size,
        accepted := input.stats.accepted + 1, acceptedBytes := input.stats.acceptedBytes + size,
        marked := input.stats.marked + one));
      QueuedAppend(inputs, admitted, Taken(Value()), i, after, a);
      ReportedOne(inputs, i, after);
      inputs := inputs[i := after];
      stats := stats.(offered := stats.offered + 1, offeredBytes := stats.offeredBytes + size,
                      accepted := stats.accepted + 1, acceptedBytes := stats.acceptedBytes + size,
                      marked := stats.marked + one, queued := stats.queued + 1);
      admitted := admitted + [a];
    }

    /** The link's completion event: it draws the loss, schedules the arrival, then notifies. */
    method Complete(lost: bool)
      requires Valid() && transmitting
      modifies this
      ensures Valid() && Value() == Served(Ended(old(Value()), lost))
    {
      ghost var before := Value();
      FinishKeeps(before, lost);
      ServingNow();
      EndedKeeps(before, lost);
      hide Inv, Carried, Ended, Served, Queued, Captured;
      Finish(lost);
      Dispatch();
    }

    /** The link's own part: it is free again, and the packet is lost or travels. */
    method EndTransmission(lost: bool)
      modifies this`transmitting, this`link, this`arrivals, this`nextEvent
      ensures !transmitting && link == Plus(old(link), Change(transmittingBytes, lost))
      ensures link.lost == old(link.lost) + if lost then 1 else 0
      ensures nextEvent == old(nextEvent) + if lost then 0 else 1
      ensures arrivals == if lost then old(arrivals) else
        old(arrivals) + [Arrival(Flight(transmittingNumber, now + c.travel, old(nextEvent)), transmittingInput, transmittingBytes)]
    {
      var bytes := transmittingBytes;
      transmitting := false;
      link := link.(transmitting := link.transmitting - 1, transmittedBytes := link.transmittedBytes + bytes);
      if lost {
        link := link.(lost := link.lost + 1, lostBytes := link.lostBytes + bytes);
      } else {
        link := link.(travelling := link.travelling + 1);
        arrivals := arrivals + [Arrival(Flight(transmittingNumber, now + c.travel, nextEvent), transmittingInput, bytes)];
        nextEvent := nextEvent + 1;
      }
    }

    /** Loss is attributed to the transmitting input by the change in the link's counter. */
    method CountEnd()
      requires transmittingInput < |inputs|
      modifies this`inputs
      ensures |inputs| == |old(inputs)|
      ensures var was := old(inputs)[transmittingInput];
        inputs == old(inputs)[transmittingInput := was.(stats := Plus(was.stats, Change(transmittingBytes, link.lost != lossesBefore)))]
    {
      var stats := inputs[transmittingInput].stats;
      stats := stats.(transmitting := stats.transmitting - 1, transmittedBytes := stats.transmittedBytes + transmittingBytes);
      if link.lost != lossesBefore {
        stats := stats.(lost := stats.lost + 1, lostBytes := stats.lostBytes + transmittingBytes);
      } else {
        stats := stats.(travelling := stats.travelling + 1);
      }
      inputs := inputs[transmittingInput := inputs[transmittingInput].(stats := stats)];
    }

    method Finish(lost: bool)
      requires Coherent() && transmitting
      modifies this
      ensures Coherent() && Value() == Ended(old(Value()), lost)
    {
      hide AllReported, Waiting, Queued, Flights, Reported, Combined, Ended, Plus, Change, Captured;
      ghost var i := transmittingInput;
      ghost var after := inputs[i].(stats := Plus(inputs[i].stats, Change(transmittingBytes, lost)));
      ReportedOne(inputs, i, after);
      EndedAs(Value(), lost);
      QueuedSame(inputs, admitted, |outcomes| + 1, i, after);
      ChangeReported(inputs[i], stats, link, Change(transmittingBytes, lost));
      ghost var arrival := Arrival(Flight(transmittingNumber, now + c.travel, nextEvent), i, transmittingBytes);
      FlightsWith(arrivals, arrival);
      CapturedWith(arrivals, arrival, admitted);
      EndTransmission(lost);
      CountEnd();
      assert inputs == old(inputs)[i := after];
      outcomes := outcomes + [lost];
    }

    /** The arrival event at position `k`. */
    method Arrive(k: nat)
      requires Valid() && Enabled(Value(), Ingress.Arrive(k))
      modifies this
      ensures Valid() && k < |old(Value()).flights|
      ensures Arrived.requires(old(Value()), k) && Value() == Arrived(old(Value()), k)
    {
      hide Inv, Carried, Queued, Captured;
      ArriveKeeps(Value(), k);
      ServingNow();
      FlightsWithout(arrivals, k);
      DropArrival(k);
    }

    method DropArrival(k: nat)
      requires Serving() && k < |arrivals|
      modifies this
      ensures Coherent() && k < |old(Value()).flights|
      ensures Arrived.requires(old(Value()), k) && Value() == Arrived(old(Value()), k)
    {
      var arrival := arrivals[k];
      var input := inputs[arrival.input];
      var after := input.(stats := input.stats.(travelling := input.stats.travelling - 1,
        delivered := input.stats.delivered + 1, deliveredBytes := input.stats.deliveredBytes + arrival.size));
      ReportedOne(inputs, arrival.input, after);
      FlightsWithout(arrivals, k);
      hide AllReported, Waiting, Carried, Flights;
      inputs := inputs[arrival.input := after];
      arrivals := arrivals[..k] + arrivals[k + 1..];
      link := link.(travelling := link.travelling - 1, delivered := link.delivered + 1,
                    deliveredBytes := link.deliveredBytes + arrival.size);
      delivered := delivered + [arrival.flight.number];
    }

    // ---------- Whole runs ----------

    /** One event that the engine may fire now. */
    method Perform(step: Step)
      requires Valid() && Enabled(Value(), step)
      modifies this
      ensures Valid() && Value() == Next(old(Value()), step)
    {
      NextKeeps(Value(), step);
      hide Inv, Transmitted, Served, Ended, Arrived, Waiting, Queued, Captured;
      match step
      case Transmit(i, size, ecn, congested) => var accepted := TransmitECN(i, size, ecn, congested);
      case Finish(lost) => Complete(lost);
      case Arrive(k) => Arrive(k);
      case Elapse(to) => now := to;
    }

    /** Any run of a new link: the survivors are delivered in the order of admission over all
        inputs, and a free link leaves no input waiting. */
    method Play(steps: seq<Step>)
      requires Valid() && Value() == Init(c) && c.bandwidth > 0 && c.endTime >= 0
      requires forall k :: 0 <= k < |steps| ==> Enabled(Run(c, steps[..k]), steps[k])
      modifies this
      ensures Valid() && Value() == Run(c, steps)
      ensures delivered + Numbers(Flights(arrivals)) == Survivors(outcomes)
      ensures !transmitting ==> forall i: nat :: i < |inputs| ==> inputs[i].queue == []
    {
      hide Inv, Next, Init, Enabled, Captured, Waiting, Survivors, Numbers;
      for k := 0 to |steps|
        invariant Valid() && Value() == Run(c, steps[..k])
      {
        assert steps[..k + 1][..k] == steps[..k];
        Perform(steps[k]);
      }
      assert steps[..|steps|] == steps;
      OneGlobalFIFO(c, steps);
    }
  }

  lemma CapturedWith(arrivals: seq<Arrival>, arrival: Arrival, admitted: seq<Admission>)
    requires Captured(arrivals, admitted) && 1 <= arrival.flight.number <= |admitted|
    requires var a := admitted[arrival.flight.number - 1]; a.input == arrival.input && a.size == arrival.size
    ensures Captured(arrivals + [arrival], admitted)
  {
  }

  lemma EndedAs(s: State, lost: bool)
    requires |s.outcomes| < |s.admitted| && s.admitted[|s.outcomes|].input < |s.perInput|
    ensures var a := s.admitted[|s.outcomes|];
      Ended(s, lost) == Counted(s, a.input, Change(a.size, lost)).(
        busy := false, outcomes := s.outcomes + [lost],
        flights := if lost then s.flights else s.flights + [Flight(|s.outcomes| + 1, s.now + s.c.travel, s.nextEvent)],
        nextEvent := s.nextEvent + if lost then 0 else 1)
  {
    hide Plus;
  }

  lemma FlightsWith(arrivals: seq<Arrival>, arrival: Arrival)
    ensures Flights(arrivals + [arrival]) == Flights(arrivals) + [arrival.flight]
  {
  }

  lemma FlightsWithout(arrivals: seq<Arrival>, k: nat)
    requires k < |arrivals|
    ensures Flights(arrivals[..k] + arrivals[k + 1..]) == Flights(arrivals)[..k] + Flights(arrivals)[k + 1..]
    ensures |Flights(arrivals)| == |arrivals| && Flights(arrivals)[k] == arrivals[k].flight
  {
  }
}
