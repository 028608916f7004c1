/** What a receiver puts on the wire: at most one packet a step, and that packet reports the
    state the step ends in. */
module ReceiverReports {
  import opened Basics
  import opened Packets
  import opened Receiver
  import RB = ReceiveBuffer
  import SR = SackReport
  import RI = ReceiverSafety

  predicate Control(q: Packet) {
    q.flags.syn || q.flags.rst
  }

  /** Acknowledgement, window and blocks are those of `t`. */
  ghost predicate Reports(t: State, q: Packet) {
    q.ackNo == t.buffer.next && q.window == RB.WindowBytes(t.buffer) && q.sackBlocks == t.feedback.recent
    && q.flags.ece == (t.feedback.ecn && t.feedback.echo)
  }

  /** A SYN of ours offers the current window; a reset offers nothing. */
  ghost predicate Opens(t: State, q: Packet) {
    Control(q) && (!q.flags.rst ==> q.window == RB.WindowBytes(t.buffer))
  }

  /** From `s` to `t` at most one packet was emitted, last of all. */
  ghost predicate Says(s: State, t: State) {
    || t.out == s.out
    || (|t.out| == |s.out| + 1 && s.out <= t.out && (Opens(t, t.out[|s.out|]) || Reports(t, t.out[|s.out|])))
  }

  lemma AcknowledgeDataSays(s: State, mayDelay: bool)
    ensures Says(s, AcknowledgeData(s, mayDelay)) && Says(s, DelayExpired(s))
  {
  }

  lemma ConsumeSays(s: State, sequence: nat)
    ensures Says(s, ConsumeFIN(s, sequence))
  {
  }

  lemma SilentOperations(s: State, p: Packet, end: nat, ack: nat, can: bool, outcome: CloseOutcome)
    ensures AcknowledgeFIN(s, ack).0.out == s.out && ObserveECN(s, p).out == s.out && EstablishConnection(s, can).0.out == s.out
    ensures TakeData(s, p, end).0.out == s.out && Finish(s, outcome).out == s.out && HandleReset(s, p).out == s.out
  {
  }

  lemma HandleSYNSays(s: State, p: Packet, end: nat, canOpen: bool)
    ensures Says(s, HandleSYN(s, p, end, canOpen))
  {
  }

  lemma RepeatedFINSays(s: State, p: Packet)
    ensures Says(s, RepeatedFIN(s, p))
  {
    hide AcknowledgeFIN, ObserveECN;
    SilentOperations(s, p, 0, p.ackNo, false, Aborted);
    var acked := AcknowledgeFIN(s, p.ackNo).0;
    SilentOperations(acked, p, 0, p.ackNo, false, Aborted);
  }

  lemma HandleFINSays(s: State, p: Packet, canEstablish: bool)
    ensures Says(s, HandleFIN(s, p, canEstablish))
  {
    hide AcknowledgeFIN, ObserveECN, EstablishConnection, RepeatedFIN, ConsumeFIN, FINFits;
    RepeatedFINSays(s, p);
    SilentOperations(s, p, 0, p.ackNo, canEstablish, Aborted);
    var entered := if s.conn.established then s else EstablishConnection(s, canEstablish).0;
    SilentOperations(entered, p, 0, p.ackNo, canEstablish, Aborted);
    var acked := AcknowledgeFIN(entered, p.ackNo).0;
    SilentOperations(acked, p, 0, p.ackNo, canEstablish, Aborted);
    ConsumeSays(ObserveECN(acked, p), p.seqNo);
  }

  /** The state in which one data segment has been taken, before it is answered. */
  function Taken(s: State, p: Packet, end: nat): State {
    var acked := if RB.OverlapsWindow(s.buffer, p.seqNo, end) then AcknowledgeFIN(s, p.ackNo).0 else s;
    var marked := if RB.OverlapsWindow(s.buffer, p.seqNo, end) then ObserveECN(acked, p) else acked;
    TakeData(marked, p, end).0
  }

  /** What the taken segment reported is what the answer repeats. */
  ghost predicate SameReport(taken: State, t: State) {
    t.feedback.recent == taken.feedback.recent && t.buffer.ranges == taken.buffer.ranges && t.feedback.sack == taken.feedback.sack
  }

  lemma AnswersSameReport(s: State, sequence: nat, mayDelay: bool)
    ensures SameReport(s, ConsumeFIN(s, sequence)) && SameReport(s, AcknowledgeData(s, mayDelay))
  {
  }

  lemma HandleDataSays(s: State, p: Packet, end: nat)
    ensures Says(s, HandleData(s, p, end))
    ensures HandleData(s, p, end).out != s.out ==> SameReport(Taken(s, p, end), HandleData(s, p, end))
  {
    hide AcknowledgeFIN, ObserveECN, TakeData, ConsumeFIN, AcknowledgeData, SameReport;
    SilentOperations(s, p, end, p.ackNo, false, Aborted);
    var acked := if RB.OverlapsWindow(s.buffer, p.seqNo, end) then AcknowledgeFIN(s, p.ackNo).0 else s;
    SilentOperations(acked, p, end, p.ackNo, false, Aborted);
    var marked := if RB.OverlapsWindow(s.buffer, p.seqNo, end) then ObserveECN(acked, p) else acked;
    SilentOperations(marked, p, end, p.ackNo, false, Aborted);
    var taken := TakeData(marked, p, end).0;
    ConsumeSays(taken, taken.conn.pendingFINSeq);
    AcknowledgeDataSays(taken, true);
    AcknowledgeDataSays(taken, false);
    AnswersSameReport(taken, taken.conn.pendingFINSeq, true);
    AnswersSameReport(taken, taken.conn.pendingFINSeq, false);
  }

  lemma HandlePacketSays(s: State, p: Packet, a: Admission)
    ensures Says(s, HandlePacket(s, p, a))
  {
    hide HandleReset, HandleSYN, HandleFIN, HandleData, AcknowledgeFIN, ObserveECN, EstablishConnection, ValidSACKOptions, Says, SequenceEnd;
    SilentSays(s);
    if SequenceEnd(p).Some? {
      var end := SequenceEnd(p).value;
      SilentOperations(s, p, end, p.ackNo, a.canEstablish, Aborted);
      HandleSYNSays(s, p, end, a.canOpen);
      HandleFINSays(s, p, a.canEstablish);
      var entered := if s.conn.established then s else Enter(s, p, end, a.canEstablish).0;
      SilentOperations(entered, p, end, p.ackNo, a.canEstablish, Aborted);
      SilentOperations(AcknowledgeFIN(entered, p.ackNo).0, p, end, p.ackNo, a.canEstablish, Aborted);
      HandleDataSays(entered, p, end);
      SaysAfter(s, entered, HandleData(entered, p, end));
    }
  }

  lemma SilentSays(s: State)
    ensures forall t: State :: t.out == s.out ==> Says(s, t)
  {
  }

  lemma SaysAfter(s: State, entered: State, t: State)
    requires entered.out == s.out && Says(entered, t)
    ensures Says(s, t)
  {
  }

  /** Every step emits at most one packet; unless it opens or resets, it reports the new state. */
  lemma StepSays(s: State, i: Input)
    ensures Says(s, Step(s, i))
  {
    hide HandlePacket;
    match i
    case Arrives(p, a) => HandlePacketSays(s, p, a);
    case _ =>
  }

  // ---------- The triggering segment ----------

  lemma {:induction false} OverlapBounded(low: int, ranges: seq<RB.ByteRange>, start: int, end: int, limit: int)
    requires RB.Separated(low, ranges) && RB.EndsBy(ranges, limit)
    ensures SR.FirstOverlap(ranges, start, Min(end, limit)) == SR.FirstOverlap(ranges, start, end)
    decreases |ranges|
  {
    if ranges != [] {
      assert ranges[0] in ranges;
      assert forall r :: r in ranges[1..] ==> r in ranges;
      OverlapBounded(ranges[0].end, ranges[1..], start, end, limit);
    }
  }

  /** After a segment was taken, the first buffered range it overlaps leads the report. */
  lemma TakenLeads(s: State, p: Packet, end: nat)
    requires RI.Inv(s) && s.phase.Open? && s.conn.established && !s.conn.peerFIN && s.feedback.sack
    ensures var (t, added) := TakeData(s, p, end);
      var hit := SR.FirstOverlap(t.buffer.ranges, p.seqNo, end);
      hit.Some? ==> t.feedback.recent != [] && t.feedback.recent[0] == SR.BlockOf(hit.value)
  {
    var bound := if s.conn.pendingFIN then Min(end, s.conn.pendingFINSeq) else end;
    RI.TakeDataKeeps(s, p, end);
    var (t, added) := TakeData(s, p, end);
    TakenShape(t);
    hide RI.Inv, RB.AcceptBytes;
    SR.ReportTruthful(t.buffer.next, t.buffer.ranges, s.feedback.recent, p.seqNo, bound);
    if s.conn.pendingFIN {
      OverlapBounded(t.buffer.next, t.buffer.ranges, p.seqNo, end, s.conn.pendingFINSeq);
    }
  }

  lemma TakenShape(t: State)
    requires RI.Inv(t)
    ensures RB.Separated(t.buffer.next, t.buffer.ranges)
    ensures t.conn.pendingFIN ==> RB.EndsBy(t.buffer.ranges, t.conn.pendingFINSeq)
  {
    hide RI.AllHonest, RI.ReportCurrent, RI.ClosingAgrees;
  }

  /** The report that answers a data segment begins with the range it joined. */
  ghost predicate LedBy(t: State, q: Packet, p: Packet) {
    var end := SequenceEnd(p);
    p.size > 0 && !p.flags.fin && !Control(p) && !Control(q) && t.feedback.sack && end.Some? ==>
      var hit := SR.FirstOverlap(t.buffer.ranges, p.seqNo, end.value);
      hit.Some? ==> q.sackBlocks != [] && q.sackBlocks[0] == SR.BlockOf(hit.value)
  }

  lemma HandleDataLeads(s: State, p: Packet, end: nat)
    requires RI.Inv(s) && s.phase.Open? && s.conn.established && !s.conn.peerFIN
    requires HandleData(s, p, end).out != s.out
    ensures var t := HandleData(s, p, end);
      t.feedback.sack ==>
        var hit := SR.FirstOverlap(t.buffer.ranges, p.seqNo, end);
        hit.Some? ==> t.feedback.recent != [] && t.feedback.recent[0] == SR.BlockOf(hit.value)
  {
    hide RI.Inv, TakeData, AcknowledgeFIN, ObserveECN;
    HandleDataSays(s, p, end);
    RI.AcknowledgeFINKeeps(s, p.ackNo);
    var inWindow := RB.OverlapsWindow(s.buffer, p.seqNo, end);
    var acked := if inWindow then AcknowledgeFIN(s, p.ackNo).0 else s;
    RI.ObserveECNKeeps(acked, p);
    var marked := if inWindow then ObserveECN(acked, p) else acked;
    var t := HandleData(s, p, end);
    if t.feedback.sack {
      StillOpen(s, p, end);
      TakenSACK(marked, p, end);
      TakenLeads(marked, p, end);
    }
  }

  lemma TakenSACK(s: State, p: Packet, end: nat)
    ensures TakeData(s, p, end).0.feedback.sack == s.feedback.sack
  {
  }

  /** A segment is answered only while the connection stays open. */
  lemma StillOpen(s: State, p: Packet, end: nat)
    requires s.phase.Open? && s.conn.established && !s.conn.peerFIN
    requires HandleData(s, p, end).out != s.out
    ensures var inWindow := RB.OverlapsWindow(s.buffer, p.seqNo, end);
      var acked := if inWindow then AcknowledgeFIN(s, p.ackNo).0 else s;
      var marked := if inWindow then ObserveECN(acked, p) else acked;
      marked.phase.Open? && marked.conn.established && !marked.conn.peerFIN
  {
    hide TakeData, ConsumeFIN, AcknowledgeData;
  }

  /** The handshake may complete on the way, which takes nothing from the buffer. */
  lemma EnterKeepsInv(s: State, p: Packet, end: nat, canEstablish: bool)
    requires RI.Inv(s) && s.phase.Open? && !s.conn.established
    ensures var (entered, ok) := Enter(s, p, end, canEstablish);
      entered.out == s.out && (ok ==> RI.Inv(entered) && entered.phase.Open? && entered.conn.established && !entered.conn.peerFIN)
  {
    hide RI.AllHonest, RI.ReportCurrent, RB.Valid;
    RI.EstablishKeeps(s, canEstablish);
  }

  lemma ArrivalLeads(s: State, p: Packet, a: Admission)
    requires RI.Inv(s)
    ensures var t := HandlePacket(s, p, a); |t.out| == |s.out| + 1 ==> LedBy(t, t.out[|s.out|], p)
  {
    hide RI.Inv, HandleReset, HandleSYN, HandleFIN, HandleData, AcknowledgeFIN, ObserveECN, EstablishConnection, Enter, ValidSACKOptions, SequenceEnd;
    var t := HandlePacket(s, p, a);
    HandlePacketSays(s, p, a);
    if |t.out| == |s.out| + 1 && SequenceEnd(p).Some? && p.size > 0 && !p.flags.fin && !Control(p) && s.phase.Open? {
      var end := SequenceEnd(p).value;
      if !s.conn.established {
        EnterKeepsInv(s, p, end, a.canEstablish);
      }
      var entered := if s.conn.established then s else Enter(s, p, end, a.canEstablish).0;
      if !entered.conn.peerFIN && entered.phase.Open? && entered.conn.established {
        HandleDataLeads(entered, p, end);
      }
    }
  }
}
