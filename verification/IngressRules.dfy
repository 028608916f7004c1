/** What the shared link does with one packet: when it is refused, how long it transmits and
    travels, and what the byte counters of its input add up to. */
module IngressRules {
  import opened Basics
  import opened Serialization
  import opened Ingress

  // ---------- One packet ----------

  /** A free link takes a packet at once. Otherwise it waits in its input's queue, and is refused
      exactly when that queue is full or congestion is signalled to a sender that cannot be told by
      a mark. */
  lemma TransmitRule(s: State, i: nat, size: nat, ecn: ECNState, congested: bool)
    requires Inv(s) && Enabled(s, Transmit(i, size, ecn, congested))
    ensures var t := Next(s, Transmit(i, size, ecn, congested));
      var refused := s.busy && (|Waiting(s.admitted, Taken(s), i)| >= s.c.capacity || (congested && ecn == NotCapable));
      var marks := s.busy && !refused && congested && ecn == Capable;
      && t.perInput[i].offered == s.perInput[i].offered + 1 && t.perInput[i].offeredBytes == s.perInput[i].offeredBytes + size
      && t.perInput[i].dropped == s.perInput[i].dropped + (if refused then 1 else 0)
      && t.perInput[i].droppedBytes == s.perInput[i].droppedBytes + (if refused then size else 0)
      && t.perInput[i].marked == s.perInput[i].marked + (if marks then 1 else 0)
      && t.admitted == (if refused then s.admitted else s.admitted + [Admission(i, size, ecn == AlreadyMarked || marks)])
      && t.busy == (s.busy || !refused) && (s.busy ==> t.doneAt == s.doneAt)
      && (!s.busy ==> t.doneAt == s.now + Duration(size, s.c.bandwidth))
  {
    hide Exact, Total, InOrder, Survivors, Numbers, Waiting, Duration;
  }

  // ---------- Time on the link ----------

  /** The transmission under way, if any, ends when it was going to; the next one takes exactly its
      packet's serialization time. */
  lemma LinkRule(s: State, step: Step)
    requires Inv(s)
    ensures var t := Next(s, step);
      && (t.busy && Taken(t) == Taken(s) ==> s.busy && t.doneAt == s.doneAt && t.outcomes == s.outcomes)
      && (t.busy && Taken(t) != Taken(s) ==>
            Taken(t) == Taken(s) + 1 && Taken(s) < |t.admitted|
            && t.doneAt == t.now + Duration(t.admitted[Taken(s)].size, t.c.bandwidth))
      && s.admitted <= t.admitted
  {
    hide Exact, Total, InOrder, Survivors, Numbers, Waiting, Duration, Plus;
  }

  /** A transmission that the link takes in step `i` and ends in step `j` lasts as long as its
      packet's bits need at the link's bandwidth. */
  lemma TransmissionTime(c: Config, steps: seq<Step>, i: nat, j: nat, k: nat)
    requires c.bandwidth > 0 && c.endTime >= 0 && i < j < |steps| && steps[j].Finish?
    requires Taken(Run(c, steps[..i])) == k && forall m :: i < m <= j ==> Run(c, steps[..m]).busy && Taken(Run(c, steps[..m])) == k + 1
    requires Enabled(Run(c, steps[..j]), steps[j])
    ensures var s := Run(c, steps[..j]);
      k < |s.admitted| && s.now == Run(c, steps[..i + 1]).now + Duration(s.admitted[k].size, c.bandwidth)
  {
    StillTransmitting(c, steps, i, j, k);
  }

  lemma {:induction false} StillTransmitting(c: Config, steps: seq<Step>, i: nat, j: nat, k: nat)
    requires c.bandwidth > 0 && c.endTime >= 0 && i < j <= |steps|
    requires Taken(Run(c, steps[..i])) == k && forall m :: i < m <= j ==> Run(c, steps[..m]).busy && Taken(Run(c, steps[..m])) == k + 1
    ensures var s := Run(c, steps[..j]);
      k < |s.admitted| && s.doneAt == Run(c, steps[..i + 1]).now + Duration(s.admitted[k].size, c.bandwidth)
    decreases j
  {
    hide Inv, Next, Init, Duration, Enabled, Taken;
    assert steps[..j][..j - 1] == steps[..j - 1];
    RunInv(c, steps[..j - 1]);
    RunInv(c, steps[..j]);
    LinkRule(Run(c, steps[..j - 1]), steps[j - 1]);
    if j - 1 > i {
      StillTransmitting(c, steps, i, j - 1, k);
    }
  }

  /** The end of a transmission decides: lost, or due at the other end a travel time later; a flight
      under way never changes until it arrives, at its time. */
  lemma FlightRule(s: State, step: Step)
    requires Inv(s) && Enabled(s, step)
    ensures var t := Next(s, step);
      && (step.Finish? ==>
            && t.outcomes == s.outcomes + [step.lost]
            && t.flights == (if step.lost then s.flights else s.flights + [Flight(|s.outcomes| + 1, s.now + s.c.travel, s.nextEvent)]))
      && (step.Arrive? ==>
            && s.flights[step.flight].at == s.now && t.delivered == s.delivered + [s.flights[step.flight].number]
            && t.flights == s.flights[..step.flight] + s.flights[step.flight + 1..])
      && (!step.Finish? && !step.Arrive? ==> t.flights == s.flights && t.delivered == s.delivered && t.outcomes == s.outcomes)
  {
    hide Exact, Total, InOrder, Survivors, Numbers, Waiting, Duration, Plus;
  }

  // ---------- Bytes ----------

  function SizeOf(admitted: seq<Admission>, number: nat, i: nat): nat {
    if 1 <= number <= |admitted| && admitted[number - 1].input == i then admitted[number - 1].size else 0
  }

  /** The bytes of input `i` among the first `k` admissions. */
  function BytesUpTo(admitted: seq<Admission>, k: nat, i: nat): nat {
    if k == 0 then 0 else BytesUpTo(admitted, k - 1, i) + SizeOf(admitted, k, i)
  }

  /** The bytes of input `i` among the first `k` admissions that were lost. */
  function BytesLost(admitted: seq<Admission>, outcomes: seq<bool>, k: nat, i: nat): nat
    requires k <= |outcomes|
  {
    if k == 0 then 0 else BytesLost(admitted, outcomes, k - 1, i) + (if outcomes[k - 1] then SizeOf(admitted, k, i) else 0)
  }

  function BytesOf(admitted: seq<Admission>, numbers: seq<nat>, i: nat): nat {
    if numbers == [] then 0 else BytesOf(admitted, numbers[..|numbers| - 1], i) + SizeOf(admitted, numbers[|numbers| - 1], i)
  }

  ghost predicate BytesExact(n: Counters, admitted: seq<Admission>, outcomes: seq<bool>, delivered: seq<nat>, i: nat) {
    && n.acceptedBytes == BytesUpTo(admitted, |admitted|, i)
    && n.transmittedBytes == BytesUpTo(admitted, |outcomes|, i)
    && n.lostBytes == BytesLost(admitted, outcomes, |outcomes|, i)
    && n.deliveredBytes == BytesOf(admitted, delivered, i)
  }

  ghost predicate AllBytesExact(s: State) {
    forall i: nat :: i < |s.perInput| ==> BytesExact(s.perInput[i], s.admitted, s.outcomes, s.delivered, i)
  }

  lemma {:induction false} UpToAppend(admitted: seq<Admission>, a: Admission, k: nat, i: nat)
    requires k <= |admitted|
    ensures BytesUpTo(admitted + [a], k, i) == BytesUpTo(admitted, k, i)
    decreases k
  {
    if k > 0 { UpToAppend(admitted, a, k - 1, i); }
  }

  lemma {:induction false} LostAppend(admitted: seq<Admission>, a: Admission, outcomes: seq<bool>, k: nat, i: nat)
    requires k <= |outcomes| <= |admitted|
    ensures BytesLost(admitted + [a], outcomes, k, i) == BytesLost(admitted, outcomes, k, i)
    decreases k
  {
    if k > 0 { LostAppend(admitted, a, outcomes, k - 1, i); }
  }

  lemma {:induction false} OutcomeAppend(admitted: seq<Admission>, outcomes: seq<bool>, lost: bool, k: nat, i: nat)
    requires k <= |outcomes|
    ensures BytesLost(admitted, outcomes + [lost], k, i) == BytesLost(admitted, outcomes, k, i)
    decreases k
  {
    if k > 0 { OutcomeAppend(admitted, outcomes, lost, k - 1, i); }
  }

  lemma {:induction false} NumbersAppend(admitted: seq<Admission>, a: Admission, numbers: seq<nat>, i: nat)
    requires forall k :: 0 <= k < |numbers| ==> numbers[k] <= |admitted|
    ensures BytesOf(admitted + [a], numbers, i) == BytesOf(admitted, numbers, i)
    decreases |numbers|
  {
    if numbers != [] { NumbersAppend(admitted, a, numbers[..|numbers| - 1], i); }
  }

  lemma AdmitBytes(n: Counters, admitted: seq<Admission>, outcomes: seq<bool>, delivered: seq<nat>, i: nat, a: Admission)
    requires BytesExact(n, admitted, outcomes, delivered, i) && |outcomes| <= |admitted|
    requires forall k :: 0 <= k < |delivered| ==> delivered[k] <= |admitted|
    ensures BytesExact(n.(acceptedBytes := n.acceptedBytes + if a.input == i then a.size else 0), admitted + [a], outcomes, delivered, i)
  {
    UpToAppend(admitted, a, |admitted|, i);
    UpToAppend(admitted, a, |outcomes|, i);
    LostAppend(admitted, a, outcomes, |outcomes|, i);
    NumbersAppend(admitted, a, delivered, i);
  }

  lemma OutcomeBytes(n: Counters, admitted: seq<Admission>, outcomes: seq<bool>, delivered: seq<nat>, i: nat, lost: bool)
    requires BytesExact(n, admitted, outcomes, delivered, i) && |outcomes| < |admitted|
    ensures var size := SizeOf(admitted, |outcomes| + 1, i);
      BytesExact(n.(transmittedBytes := n.transmittedBytes + size, lostBytes := n.lostBytes + if lost then size else 0),
                 admitted, outcomes + [lost], delivered, i)
  {
    OutcomeAppend(admitted, outcomes, lost, |outcomes|, i);
  }

  lemma DeliverBytes(n: Counters, admitted: seq<Admission>, outcomes: seq<bool>, delivered: seq<nat>, i: nat, number: nat)
    requires BytesExact(n, admitted, outcomes, delivered, i)
    ensures BytesExact(n.(deliveredBytes := n.deliveredBytes + SizeOf(admitted, number, i)), admitted, outcomes, delivered + [number], i)
  {
    assert (delivered + [number])[..|delivered|] == delivered;
  }

  /** The byte counters alone. */
  ghost predicate SameBytes(n: Counters, m: Counters) {
    n.acceptedBytes == m.acceptedBytes && n.transmittedBytes == m.transmittedBytes
    && n.lostBytes == m.lostBytes && n.deliveredBytes == m.deliveredBytes
  }

  lemma SameBytesExact(n: Counters, m: Counters, admitted: seq<Admission>, outcomes: seq<bool>, delivered: seq<nat>, i: nat)
    requires SameBytes(n, m) && BytesExact(n, admitted, outcomes, delivered, i)
    ensures BytesExact(m, admitted, outcomes, delivered, i)
  {
  }

  lemma ServedBytes(s: State)
    requires AllBytesExact(s)
    ensures AllBytesExact(Served(s)) && Served(s).outcomes == s.outcomes
  {
    hide BytesUpTo, BytesLost, BytesOf, Duration;
  }

  lemma AppendedBytes(s: State, i: nat, size: nat, ecn: ECNState, signalled: bool)
    requires AllBytesExact(s) && Carried(s) && i < |s.perInput|
    ensures AllBytesExact(Appended(s, i, size, ecn, signalled))
  {
    DeliveredKnown(s);
    hide BytesUpTo, BytesLost, BytesOf, Carried, BytesExact;
    var t := Appended(s, i, size, ecn, signalled);
    var a := t.admitted[|s.admitted|];
    forall q: nat | q < |t.perInput| ensures BytesExact(t.perInput[q], t.admitted, t.outcomes, t.delivered, q) {
      AdmitBytes(s.perInput[q], s.admitted, s.outcomes, s.delivered, q, a);
      SameBytesExact(s.perInput[q].(acceptedBytes := s.perInput[q].acceptedBytes + if a.input == q then a.size else 0),
                     t.perInput[q], t.admitted, t.outcomes, t.delivered, q);
    }
  }

  /** Everything delivered was admitted. */
  lemma DeliveredKnown(s: State)
    requires Carried(s)
    ensures |s.outcomes| <= |s.admitted| && forall k :: 0 <= k < |s.delivered| ==> s.delivered[k] <= |s.admitted|
  {
    hide Exact, Total, InOrder, Waiting, Numbers, Survivors;
    SurvivorsOrdered(s.outcomes);
    forall k | 0 <= k < |s.delivered| ensures s.delivered[k] <= |s.admitted| {
      assert (s.delivered + Numbers(s.flights))[k] == s.delivered[k] == Survivors(s.outcomes)[k];
    }
  }

  lemma EndedBytes(s: State, lost: bool)
    requires AllBytesExact(s) && |s.outcomes| < |s.admitted| && s.admitted[|s.outcomes|].input < |s.perInput|
    ensures AllBytesExact(Ended(s, lost))
  {
    hide BytesUpTo, BytesLost, BytesOf, BytesExact;
    var t := Ended(s, lost);
    forall q: nat | q < |t.perInput| ensures BytesExact(t.perInput[q], t.admitted, t.outcomes, t.delivered, q) {
      OutcomeBytes(s.perInput[q], s.admitted, s.outcomes, s.delivered, q, lost);
      var size := SizeOf(s.admitted, |s.outcomes| + 1, q);
      SameBytesExact(s.perInput[q].(transmittedBytes := s.perInput[q].transmittedBytes + size,
                                    lostBytes := s.perInput[q].lostBytes + if lost then size else 0),
                     t.perInput[q], t.admitted, t.outcomes, t.delivered, q);
    }
  }

  lemma ArrivedBytes(s: State, k: nat)
    requires AllBytesExact(s) && Arrived.requires(s, k)
    ensures AllBytesExact(Arrived(s, k))
  {
    hide BytesUpTo, BytesLost, BytesOf, BytesExact;
    var t := Arrived(s, k);
    forall q: nat | q < |t.perInput| ensures BytesExact(t.perInput[q], t.admitted, t.outcomes, t.delivered, q) {
      DeliverBytes(s.perInput[q], s.admitted, s.outcomes, s.delivered, q, s.flights[k].number);
      SameBytesExact(s.perInput[q].(deliveredBytes := s.perInput[q].deliveredBytes + SizeOf(s.admitted, s.flights[k].number, q)),
                     t.perInput[q], t.admitted, t.outcomes, t.delivered, q);
    }
  }

  lemma DroppedBytes(s: State, i: nat, size: nat)
    requires AllBytesExact(s) && i < |s.perInput|
    ensures AllBytesExact(Counted(s, i, ZERO.(offered := 1, offeredBytes := size, dropped := 1, droppedBytes := size)))
  {
    hide BytesUpTo, BytesLost, BytesOf;
  }

  lemma InvCarried(s: State)
    requires Inv(s)
    ensures Carried(s)
  {
    hide Exact, Total, InOrder, Waiting, Numbers, Survivors;
  }

  lemma StepBytes(s: State, step: Step)
    requires Inv(s) && AllBytesExact(s)
    ensures AllBytesExact(Next(s, step))
  {
    hide Inv, AllBytesExact, Carried, Accepts, Signalled, Appended, Served, Ended, Arrived;
    InvCarried(s);
    if Enabled(s, step) {
      match step
      case Transmit(i, size, ecn, congested) =>
        AppendedBytes(s, i, size, ecn, Signalled(s, i, congested));
        ServedBytes(Appended(s, i, size, ecn, Signalled(s, i, congested)));
        DroppedBytes(s, i, size);
      case Finish(lost) =>
        EndedBytes(s, lost);
        ServedBytes(Ended(s, lost));
      case Arrive(k) => ArrivedBytes(s, k);
      case Elapse(to) => assert AllBytesExact(s.(now := to)) by { LaterBytes(s, to); }
    }
  }

  lemma LaterBytes(s: State, to: int)
    requires AllBytesExact(s)
    ensures AllBytesExact(s.(now := to))
  {
  }

  lemma FirstBytes(c: Config)
    ensures AllBytesExact(Init(c))
  {
  }

  /** In every run the byte counters of an input are the sizes of what it had accepted, transmitted,
      lost and delivered, packet by packet. */
  lemma {:induction false} BytesAddUp(c: Config, steps: seq<Step>)
    requires c.bandwidth > 0 && c.endTime >= 0
    ensures AllBytesExact(Run(c, steps))
    decreases |steps|
  {
    if steps == [] {
      FirstBytes(c);
    } else {
      hide Inv, Next, Init, AllBytesExact;
      BytesAddUp(c, steps[..|steps| - 1]);
      RunInv(c, steps[..|steps| - 1]);
      StepBytes(Run(c, steps[..|steps| - 1]), steps[|steps| - 1]);
    }
  }
}
