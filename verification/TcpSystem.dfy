/** One sender and one receiver joined by a network that loses, duplicates, delays and
    reorders packets and may mark them.

    The network is everything ever emitted: any packet sent so far may arrive now, again,
    later, or never. */
module TcpSystem {
  import opened Basics
  import opened Packets
  import S = Sender
  import SI = SenderSafety
  import SS = SenderSteps
  import R = Receiver
  import RI = ReceiverSafety
  import RS = ReceiverSteps
  import RB = ReceiveBuffer
  import SR = SackReport
  import RP = ReceiverReports

  datatype System = System(snd: S.State, rcv: R.State)

  datatype Config = Config(snd: S.Config, rcv: R.Config)

  datatype Step =
    | SenderActs(si: S.Input)
    | ReceiverActs(ri: R.Input)
    | ReachesReceiver(k: nat, ce: bool, admission: R.Admission)
    | ReachesSender(k: nat, choices: S.Choices)

  function Init(config: Config): System {
    System(S.Init(config.snd), R.Init(config.rcv))
  }

  function Next(sys: System, step: Step): System {
    match step
    case SenderActs(i) => if i.Arrives? then sys else sys.(snd := S.Step(sys.snd, i))
    case ReceiverActs(i) => if i.Arrives? then sys else sys.(rcv := R.Step(sys.rcv, i))
    case ReachesReceiver(k, ce, a) =>
      if k >= |sys.snd.out| then sys
      else sys.(rcv := R.Step(sys.rcv, R.Arrives(sys.snd.out[k].(ce := ce), a)))
    case ReachesSender(k, c) =>
      if k >= |sys.rcv.out| then sys
      else sys.(snd := S.Step(sys.snd, S.Arrives(sys.rcv.out[k], c)))
  }

  function Run(config: Config, steps: seq<Step>): System
    decreases |steps|
  {
    if steps == [] then Init(config) else Next(Run(config, steps[..|steps| - 1]), steps[|steps| - 1])
  }

  // ---------- The invariant of the composition ----------

  function Limit(s: S.State): int {
    SI.DataEnd(s.conn, s.space)
  }

  ghost predicate SenderHonest(s: S.State) {
    forall k :: 0 <= k < |s.out| ==> SS.Honest(s, s.out[k])
  }

  /** What each end knows about the other. */
  ghost predicate Linked(s: S.State, r: R.State) {
    && RS.Within(r, Limit(s), s.conn.finSent)
    && (if s.hs.completed
        then !r.phase.Listening? && s.space.peerInitial == 0 && s.space.una <= r.buffer.next
             && s.space.windowEnd <= RB.RightEdge(r.buffer) && Limit(s) <= RB.RightEdge(r.buffer)
        else Limit(s) <= 1)
    && (s.conn.peerFIN ==> r.conn.finSent)
    && (s.conn.finAcked ==> r.conn.peerFIN)
    && (r.conn.finAcked ==> s.conn.peerFIN)
  }

  ghost predicate Inv(sys: System) {
    SI.Inv(sys.snd) && RI.Inv(sys.rcv) && SenderHonest(sys.snd) && Linked(sys.snd, sys.rcv)
  }

  // ---------- Sender steps ----------

  lemma HonestLocal(s: S.State, t: S.State, p: Packet)
    requires SI.Inv(s) && SS.Local(s, t) && SS.Honest(s, p)
    ensures SS.Honest(t, p)
  {
    hide SI.Karn, SI.Reductions, SI.ClosingAgrees;
  }

  lemma HonestLearns(s: S.State, t: S.State, p: Packet, q: Packet)
    requires SS.Learns(s, t, q) && SS.Honest(s, p)
    ensures SS.Honest(t, p)
  {
  }

  lemma SenderLocal(sys: System, t: S.State)
    requires Inv(sys) && SI.Inv(t) && SS.Local(sys.snd, t)
    ensures SenderHonest(t) && Linked(t, sys.rcv)
  {
    hide SI.Inv, RI.Inv, Linked, SS.Honest;
    forall k | 0 <= k < |t.out| ensures SS.Honest(t, t.out[k]) {
      if k < |sys.snd.out| {
        assert t.out[k] == sys.snd.out[k];
        HonestLocal(sys.snd, t, t.out[k]);
      }
    }
    LocalLinked(sys.snd, t, sys.rcv);
  }

  lemma LocalLinked(s: S.State, t: S.State, r: R.State)
    requires SI.Inv(s) && SI.Inv(t) && SS.Local(s, t) && Linked(s, r)
    ensures Linked(t, r)
  {
    hide SI.Karn, SI.Reductions, SS.Honest;
  }

  lemma SenderLearns(sys: System, t: S.State, p: Packet)
    requires Inv(sys) && SI.Inv(t) && p in sys.rcv.out && SS.Learns(sys.snd, t, p)
    ensures SenderHonest(t) && Linked(t, sys.rcv)
  {
    ReceiverHonest(sys, p);
    hide SI.Inv, RI.Inv, RI.Honest, Linked, SS.Honest;
    forall k | 0 <= k < |t.out| ensures SS.Honest(t, t.out[k]) {
      if k < |sys.snd.out| {
        assert t.out[k] == sys.snd.out[k];
        HonestLearns(sys.snd, t, t.out[k], p);
      }
    }
    LearnsLinked(sys.snd, t, sys.rcv, p);
  }

  lemma ReceiverHonest(sys: System, p: Packet)
    requires Inv(sys) && p in sys.rcv.out
    ensures RI.Honest(sys.rcv.conn, sys.rcv.phase, sys.rcv.buffer, p)
  {
    hide SI.Inv, RI.Honest, Linked, SenderHonest;
  }

  lemma LearnsLinked(s: S.State, t: S.State, r: R.State, p: Packet)
    requires SI.Inv(s) && SI.Inv(t) && SS.Learns(s, t, p) && Linked(s, r)
    requires RI.Inv(r) && RI.Honest(r.conn, r.phase, r.buffer, p)
    ensures Linked(t, r)
  {
    hide SI.Karn, SI.Reductions, SS.Honest, RI.AllHonest, RI.ReportCurrent, ValidSACKOptions;
  }

  // ---------- Receiver steps ----------

  lemma ReceiverLocal(sys: System, t: R.State)
    requires Inv(sys) && RS.SamePeer(sys.rcv, t) && RI.Later(sys.rcv, t)
    ensures Linked(sys.snd, t)
  {
    hide SI.Inv, RI.Inv, SenderHonest;
  }

  lemma ReceiverHandles(sys: System, t: R.State, p: Packet)
    requires Inv(sys) && SS.Honest(sys.snd, p) && RI.Later(sys.rcv, t)
    requires RS.Good(sys.rcv, t, p, Limit(sys.snd), sys.snd.conn.finSent)
    ensures Linked(sys.snd, t)
  {
    hide SI.Karn, SI.Reductions, SI.ClosingAgrees, RI.AllHonest, RI.ReportCurrent, RI.StreamInv, SenderHonest;
  }

  lemma HonestFrom(s: S.State, p: Packet, ce: bool)
    requires SI.Inv(s) && SS.Honest(s, p)
    ensures RS.From(p.(ce := ce), Limit(s), s.conn.finSent) && SS.Honest(s, p.(ce := ce))
  {
    hide SI.Karn, SI.Reductions, SI.ClosingAgrees;
  }

  // ---------- Every run ----------

  lemma InitInv(config: Config)
    requires R.ValidConfig(config.rcv)
    ensures Inv(Init(config))
  {
    SS.InitInv(config.snd);
    hide SI.Inv;
  }

  lemma NextInv(sys: System, step: Step)
    requires Inv(sys)
    ensures Inv(Next(sys, step))
    ensures RI.Later(sys.rcv, Next(sys, step).rcv)
  {
    hide SI.Inv, RI.Inv, Linked, S.Step, R.Step, SS.Local, SS.Learns, RI.Later, RS.Good, RS.SamePeer;
    RI.LaterSelf(sys.rcv);
    match step
    case SenderActs(i) =>
      if !i.Arrives? {
        SS.StepCorrect(sys.snd, i);
        SenderLocal(sys, S.Step(sys.snd, i));
      }
    case ReceiverActs(i) =>
      if !i.Arrives? {
        RI.StepKeeps(sys.rcv, i);
        RS.LocalSteps(sys.rcv, i);
        ReceiverLocal(sys, R.Step(sys.rcv, i));
      }
    case ReachesReceiver(k, ce, a) =>
      if k < |sys.snd.out| {
        var p := sys.snd.out[k].(ce := ce);
        HonestFrom(sys.snd, sys.snd.out[k], ce);
        RI.StepKeeps(sys.rcv, R.Arrives(p, a));
        WithinLinked(sys);
        RS.HandlePacketGood(sys.rcv, p, a, Limit(sys.snd), sys.snd.conn.finSent);
        ArrivesAtReceiver(sys.rcv, p, a);
        ReceiverHandles(sys, R.Step(sys.rcv, R.Arrives(p, a)), p);
      }
    case ReachesSender(k, c) =>
      if k < |sys.rcv.out| {
        SS.StepCorrect(sys.snd, S.Arrives(sys.rcv.out[k], c));
        SenderLearns(sys, S.Step(sys.snd, S.Arrives(sys.rcv.out[k], c)), sys.rcv.out[k]);
      }
  }

  lemma WithinLinked(sys: System)
    requires Inv(sys)
    ensures RS.Within(sys.rcv, Limit(sys.snd), sys.snd.conn.finSent)
  {
    hide SI.Inv, RI.Inv, SenderHonest;
  }

  lemma ArrivesAtReceiver(r: R.State, p: Packet, a: R.Admission)
    ensures R.Step(r, R.Arrives(p, a)) == R.HandlePacket(r, p, a)
  {
    hide R.HandlePacket;
  }

  lemma {:induction false} RunInv(config: Config, steps: seq<Step>)
    requires R.ValidConfig(config.rcv)
    ensures Inv(Run(config, steps))
    decreases |steps|
  {
    if steps == [] {
      InitInv(config);
    } else {
      hide Inv, Next, Init;
      RunInv(config, steps[..|steps| - 1]);
      NextInv(Run(config, steps[..|steps| - 1]), steps[|steps| - 1]);
    }
  }

  // ---------- Delivery ----------

  /** Payload bytes the sender has handed to the network at least once. */
  function SentBytes(s: S.State): int {
    Max(0, Limit(s) - 1)
  }

  lemma {:induction false} HeldWithin(low: int, ranges: seq<RB.ByteRange>, limit: int)
    requires RB.Separated(low, ranges) && RB.EndsBy(ranges, limit) && low <= limit
    ensures 0 <= RB.TotalBytes(ranges) <= limit - low
    decreases |ranges|
  {
    if ranges != [] {
      assert ranges[0] in ranges;
      assert forall r :: r in ranges[1..] ==> r in ranges;
      HeldWithin(ranges[0].end, ranges[1..], limit);
    }
  }

  lemma DeliveryFacts(sys: System)
    requires Inv(sys)
    ensures sys.snd.stream.acknowledged <= sys.rcv.received <= SentBytes(sys.snd) <= sys.snd.stream.size
    ensures sys.rcv.conn.peerFIN ==> sys.rcv.received == sys.snd.stream.size
  {
    var s, r := sys.snd, sys.rcv;
    hide SI.Karn, SI.Reductions, RI.AllHonest, RI.ReportCurrent, SenderHonest;
    if !r.phase.Listening? {
      if r.conn.peerFIN {
        HeldWithin(r.buffer.next, r.buffer.ranges, r.buffer.next);
      } else {
        HeldWithin(r.buffer.next, r.buffer.ranges, Limit(s));
      }
    }
  }

  /** Acknowledged payload <= received payload <= sent payload <= stream size, always; and when
      the sender records success, every byte of the stream was received and counted once. */
  lemma Delivery(config: Config, steps: seq<Step>)
    requires R.ValidConfig(config.rcv)
    ensures var sys := Run(config, steps);
      && sys.snd.stream.acknowledged <= sys.rcv.received <= SentBytes(sys.snd) <= sys.snd.stream.size
      && (sys.snd.stream.transfer.Succeeded? ==>
            && sys.rcv.received == sys.snd.stream.size
            && forall p :: 1 <= p <= sys.snd.stream.size ==> p in RB.Received(sys.rcv.buffer))
  {
    RunInv(config, steps);
    var sys := Run(config, steps);
    DeliveryFacts(sys);
    SuccessFacts(sys);
    hide *;
  }

  lemma SuccessFacts(sys: System)
    requires Inv(sys)
    ensures sys.snd.stream.transfer.Succeeded? ==>
      && sys.snd.stream.acknowledged == sys.snd.stream.size
      && forall p :: 1 <= p <= sys.snd.stream.size ==> p in RB.Received(sys.rcv.buffer)
  {
    hide SI.Karn, SI.Reductions, RI.AllHonest, RI.ReportCurrent, SenderHonest, RB.Valid;
    if sys.snd.stream.transfer.Succeeded? {
      assert sys.snd.stream.size < sys.rcv.buffer.next;
    }
  }

  // ---------- Closing (section 3.6 of RFC 9293) ----------

  /** TIME_WAIT or a graceful outcome on either side means that each side consumed the other's
      FIN and that the receiver has the whole stream. */
  lemma GracefulMeansComplete(config: Config, steps: seq<Step>)
    requires R.ValidConfig(config.rcv)
    requires var sys := Run(config, steps);
      || sys.snd.conn.tcp.TimeWait? || sys.snd.conn.outcome.Graceful?
      || sys.rcv.conn.tcp.TimeWait? || sys.rcv.conn.outcome.Graceful?
    ensures var sys := Run(config, steps);
      && sys.snd.conn.peerFIN && sys.rcv.conn.peerFIN
      && sys.snd.conn.finSent && sys.rcv.conn.finSent
      && sys.rcv.received == sys.snd.stream.size
      && sys.rcv.conn.peerFINSeq == sys.snd.conn.finSeq == sys.snd.stream.size + 1
  {
    RunInv(config, steps);
    DeliveryFacts(Run(config, steps));
    hide Run, SI.Karn, SI.Reductions, RI.AllHonest, RI.ReportCurrent, SenderHonest, RB.Valid;
  }

  /** A FIN is consumed only behind the last byte of the stream, and only after a FIN was sent. */
  lemma FINOnlyAtTheEnd(config: Config, steps: seq<Step>)
    requires R.ValidConfig(config.rcv)
    ensures var sys := Run(config, steps);
      && (sys.rcv.conn.peerFIN ==>
            sys.snd.conn.finSent && sys.rcv.conn.peerFINSeq == sys.snd.conn.finSeq
            && sys.rcv.received == sys.snd.stream.size && sys.rcv.buffer.ranges == []
            && sys.rcv.buffer.next == sys.snd.conn.finSeq + 1)
      && (sys.snd.conn.peerFIN ==> sys.rcv.conn.finSent)
      && (sys.snd.conn.finAcked ==> sys.rcv.conn.peerFIN)
      && (sys.rcv.conn.finAcked ==> sys.snd.conn.peerFIN)
  {
    RunInv(config, steps);
    DeliveryFacts(Run(config, steps));
    hide Run, SI.Karn, SI.Reductions, RI.AllHonest, RI.ReportCurrent, SenderHonest, RB.Valid;
  }

  // ---------- Windows ----------

  /** The receiver's right edge never retreats, the sender's never passes it, and no payload
      ever emitted reaches past it: nothing is clipped at the right edge. */
  lemma WindowSafety(config: Config, steps: seq<Step>, earlier: nat)
    requires R.ValidConfig(config.rcv) && earlier <= |steps|
    ensures var sys := Run(config, steps);
      && RB.RightEdge(Run(config, steps[..earlier]).rcv.buffer) <= RB.RightEdge(sys.rcv.buffer)
      && (sys.snd.hs.completed ==> sys.snd.space.windowEnd <= RB.RightEdge(sys.rcv.buffer))
      && (forall p :: p in sys.snd.out && p.size > 0 ==> p.seqNo + p.size <= RB.RightEdge(sys.rcv.buffer))
  {
    RunInv(config, steps);
    var sys := Run(config, steps);
    EdgesGrow(config, steps, earlier);
    WindowFacts(sys);
    hide *;
  }

  lemma WindowFacts(sys: System)
    requires Inv(sys)
    ensures sys.snd.hs.completed ==> sys.snd.space.windowEnd <= RB.RightEdge(sys.rcv.buffer)
    ensures forall p :: p in sys.snd.out && p.size > 0 ==> p.seqNo + p.size <= RB.RightEdge(sys.rcv.buffer)
  {
    hide SI.Inv, RI.Inv;
  }

  lemma {:induction false} EdgesGrow(config: Config, steps: seq<Step>, earlier: nat)
    requires R.ValidConfig(config.rcv) && earlier <= |steps|
    ensures RI.Later(Run(config, steps[..earlier]).rcv, Run(config, steps).rcv)
    decreases |steps|
  {
    if earlier == |steps| {
      assert steps[..earlier] == steps;
      RI.LaterSelf(Run(config, steps).rcv);
    } else {
      hide Inv, Next, Init, RI.Later;
      var before := steps[..|steps| - 1];
      assert before[..earlier] == steps[..earlier];
      EdgesGrow(config, before, earlier);
      RunInv(config, before);
      NextInv(Run(config, before), steps[|steps| - 1]);
      RI.LaterTwice(Run(config, before[..earlier]).rcv, Run(config, before).rcv, Run(config, steps).rcv);
    }
  }

  // ---------- Acknowledgements (section 4 of RFC 2018) ----------

  /** `q` says exactly what the receiver `r` holds: its next position, its window and, with SACK
      agreed, min(4, ranges) distinct buffered ranges strictly above that position. */
  ghost predicate Truthful(r: R.State, q: Packet) {
    && q.ackNo == r.buffer.next && q.window == RB.WindowBytes(r.buffer) && ValidSACKOptions(q)
    && (r.feedback.sack ==> SR.Complete(q.sackBlocks, r.buffer.ranges) && forall b :: b in q.sackBlocks ==> q.ackNo < b.start < b.end)
    && (!r.feedback.sack ==> q.sackBlocks == [])
  }

  /** The packet a step delivers to the receiver, if it delivers one. */
  function Delivered(sys: System, step: Step): Option<Packet> {
    if step.ReachesReceiver? && step.k < |sys.snd.out| then Some(sys.snd.out[step.k].(ce := step.ce)) else None
  }

  /** Everything the receiver emits from `sys` to `next` is truthful in `next`, and the answer to
      a data segment begins with the buffered range that segment joined. */
  ghost predicate EmitsTruth(sys: System, step: Step, next: System) {
    && |sys.rcv.out| <= |next.rcv.out| <= |sys.rcv.out| + 1
    && forall k :: |sys.rcv.out| <= k < |next.rcv.out| && !RP.Control(next.rcv.out[k]) ==>
         && Truthful(next.rcv, next.rcv.out[k])
         && (Delivered(sys, step).Some? ==> RP.LedBy(next.rcv, next.rcv.out[k], Delivered(sys, step).value))
  }

  lemma ReportsTruth(s: R.State, t: R.State)
    requires RI.Inv(t) && RP.Says(s, t)
    ensures |s.out| <= |t.out| <= |s.out| + 1
    ensures forall k :: |s.out| <= k < |t.out| && !RP.Control(t.out[k]) ==> Truthful(t, t.out[k])
  {
    hide RI.StreamInv, RI.ClosingAgrees, RI.CountsAgree;
  }

  lemma StepSays(sys: System, step: Step)
    ensures RP.Says(sys.rcv, Next(sys, step).rcv)
  {
    hide R.Step, S.Step, RP.Says, R.HandlePacket;
    NothingSaid(sys.rcv);
    match step
    case ReceiverActs(i) => RP.StepSays(sys.rcv, i);
    case ReachesReceiver(k, ce, a) =>
      if k < |sys.snd.out| {
        RP.StepSays(sys.rcv, R.Arrives(sys.snd.out[k].(ce := ce), a));
      }
    case _ =>
  }

  lemma StepLeads(sys: System, step: Step)
    requires RI.Inv(sys.rcv) && Delivered(sys, step).Some?
    ensures var t := Next(sys, step).rcv;
      |t.out| == |sys.rcv.out| + 1 ==> RP.LedBy(t, t.out[|sys.rcv.out|], Delivered(sys, step).value)
  {
    hide R.HandlePacket, RP.LedBy, RI.Inv;
    RP.ArrivalLeads(sys.rcv, Delivered(sys, step).value, step.admission);
  }

  lemma StepEmitsTruth(sys: System, step: Step)
    requires Inv(sys)
    ensures EmitsTruth(sys, step, Next(sys, step))
  {
    hide Inv, Truthful, Next, Delivered, RP.Says, RP.LedBy, RI.Inv;
    NextInv(sys, step);
    BothInv(sys);
    BothInv(Next(sys, step));
    StepSays(sys, step);
    ReportsTruth(sys.rcv, Next(sys, step).rcv);
    if Delivered(sys, step).Some? {
      StepLeads(sys, step);
    }
  }

  lemma NothingSaid(r: R.State)
    ensures RP.Says(r, r)
  {
  }

  lemma BothInv(sys: System)
    requires Inv(sys)
    ensures RI.Inv(sys.rcv)
  {
    hide SI.Inv, RI.Inv, SenderHonest, Linked;
  }

  /** Every packet the receiver ever emitted, opening and resetting ones apart, left in some step
      of the run after which it was truthful; and if a data segment caused it, the buffered range
      that segment joined comes first. */
  lemma {:induction false} EveryACKTruthful(config: Config, steps: seq<Step>, k: nat)
    requires R.ValidConfig(config.rcv) && k < |Run(config, steps).rcv.out|
    ensures exists m: nat :: m < |steps| && EmittedAt(config, steps, k, m)
    decreases |steps|
  {
    hide Inv, Next, EmitsTruth;
    if |steps| == 0 {
      NothingEmitted(config, steps);
    } else {
      var n := |steps| - 1;
      var before := Run(config, steps[..n]);
      RunInv(config, steps[..n]);
      StepEmitsTruth(before, steps[n]);
      OutGrows(before, steps[n]);
      assert steps[..n + 1] == steps;
      if k < |before.rcv.out| {
        EveryACKTruthful(config, steps[..n], k);
        var m: nat :| m < n && EmittedAt(config, steps[..n], k, m);
        assert steps[..n][..m] == steps[..m] && steps[..n][..m + 1] == steps[..m + 1] && steps[..n][m] == steps[m];
        assert EmittedAt(config, steps, k, m);
      } else {
        EmittedHere(config, steps, k, n);
      }
    }
  }

  lemma NothingEmitted(config: Config, steps: seq<Step>)
    requires steps == []
    ensures Run(config, steps).rcv.out == []
  {
  }

  lemma OutGrows(sys: System, step: Step)
    requires Inv(sys)
    ensures sys.rcv.out <= Next(sys, step).rcv.out
  {
    hide Inv, Next;
    NextInv(sys, step);
  }

  /** The receiver's `k`th packet left in step `m`, and what it said then. */
  ghost predicate EmittedAt(config: Config, steps: seq<Step>, k: nat, m: nat)
    requires m < |steps|
  {
    var before, after := Run(config, steps[..m]), Run(config, steps[..m + 1]);
    var all := Run(config, steps).rcv.out;
    && k < |all| && |before.rcv.out| <= k < |after.rcv.out| && after.rcv.out[k] == all[k]
    && (!RP.Control(all[k]) ==>
          && Truthful(after.rcv, all[k])
          && (Delivered(before, steps[m]).Some? ==> RP.LedBy(after.rcv, all[k], Delivered(before, steps[m]).value)))
  }

  lemma EmittedHere(config: Config, steps: seq<Step>, k: nat, n: nat)
    requires n + 1 == |steps| && Run(config, steps) == Next(Run(config, steps[..n]), steps[n])
    requires EmitsTruth(Run(config, steps[..n]), steps[n], Run(config, steps))
    requires |Run(config, steps[..n]).rcv.out| <= k < |Run(config, steps).rcv.out|
    ensures EmittedAt(config, steps, k, n)
  {
    hide Run, Next, Truthful, RP.LedBy;
    assert steps[..n + 1] == steps;
  }
}
