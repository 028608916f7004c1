/** What a receiver can learn from the packets of an honest sender. */
module ReceiverSteps {
  import opened Basics
  import opened Packets
  import opened Receiver
  import opened ReceiverSafety
  import RB = ReceiveBuffer

  /** The peer's stream starts at 1 and its payload ends at `limit`; `fin`: it sent its FIN there. */
  ghost predicate Within(s: State, limit: int, fin: bool) {
    && (!s.phase.Listening? ==> s.conn.peerInitial == 0)
    && (s.conn.pendingFIN ==> fin && s.conn.pendingFINSeq == limit)
    && (if s.conn.peerFIN then fin && s.conn.peerFINSeq == limit
        else s.buffer.next <= limit && RB.EndsBy(s.buffer.ranges, limit))
  }

  /** A packet such a peer can have sent. */
  ghost predicate From(p: Packet, limit: int, fin: bool) {
    && (p.flags.syn ==> p.seqNo == 0 && p.size == 0 && !p.flags.fin && !p.flags.ack && 1 <= limit)
    && (p.size > 0 ==> p.seqNo + p.size <= limit)
    && (p.flags.fin ==> fin && p.seqNo == limit && p.size == 0)
  }

  /** Only flags of our own direction, counters and replies differ. */
  ghost predicate SamePeer(s: State, t: State) {
    && t.buffer == s.buffer && t.phase.Listening? == s.phase.Listening?
    && t.conn.peerInitial == s.conn.peerInitial && t.conn.next >= s.conn.next
    && t.conn.peerFIN == s.conn.peerFIN && t.conn.peerFINSeq == s.conn.peerFINSeq
    && t.conn.pendingFIN == s.conn.pendingFIN && t.conn.pendingFINSeq == s.conn.pendingFINSeq
    && t.conn.finAcked == s.conn.finAcked
  }

  lemma SamePeerWithin(s: State, t: State, limit: int, fin: bool)
    requires SamePeer(s, t) && Within(s, limit, fin)
    ensures Within(t, limit, fin)
  {
  }

  lemma OwnDirection(s: State, p: Packet, a: bool)
    ensures SamePeer(s, Acknowledge(s)) && SamePeer(s, EmitFIN(s)) && SamePeer(s, AcknowledgeData(s, a))
    ensures SamePeer(s, Finish(s, Aborted)) && SamePeer(s, EstablishConnection(s, a).0)
    ensures SamePeer(s, HandleReset(s, p)) && SamePeer(s, ObserveECN(s, p))
  {
  }

  lemma LocalSteps(s: State, i: Input)
    requires !i.Arrives?
    ensures SamePeer(s, Step(s, i))
  {
    match i
    case DoClose =>
    case DoAbort =>
    case DoForget =>
    case DelayFires =>
    case FinTimerFires =>
    case WaitTimerFires =>
  }

  /** Confirming our FIN takes exactly the ACK one past it. */
  ghost predicate Confirmed(s: State, t: State, p: Packet) {
    t.conn.finAcked && !s.conn.finAcked ==> s.conn.finSent && p.ackNo == s.conn.next && !p.flags.syn
  }

  lemma AcknowledgeFINSame(s: State, p: Packet)
    ensures var t := AcknowledgeFIN(s, p.ackNo).0;
      && SamePeer(s, t.(conn := t.conn.(finAcked := s.conn.finAcked)))
      && t.conn.next == s.conn.next
      && (t.conn.finAcked && !s.conn.finAcked ==> s.conn.finSent && p.ackNo == s.conn.next)
  {
  }

  lemma ConsumeWithin(s: State, sequence: nat, limit: int, fin: bool)
    requires Within(s, limit, fin) && !s.phase.Listening? && fin && sequence == limit
    ensures Within(ConsumeFIN(s, sequence), limit, fin)
    ensures ConsumeFIN(s, sequence).conn.finAcked == s.conn.finAcked
  {
  }

  lemma HandleSYNWithin(s: State, p: Packet, end: nat, canOpen: bool, limit: int, fin: bool)
    requires Inv(s) && Within(s, limit, fin) && From(p, limit, fin) && p.flags.syn && SequenceEnd(p) == Some(end)
    ensures Within(HandleSYN(s, p, end, canOpen), limit, fin)
    ensures Confirmed(s, HandleSYN(s, p, end, canOpen), p)
  {
    hide AllHonest, ReportCurrent, CountsAgree;
  }

  ghost predicate Good(s: State, t: State, p: Packet, limit: int, fin: bool) {
    Within(t, limit, fin) && Confirmed(s, t, p)
  }

  /** A later reply of our own direction adds nothing. */
  lemma GoodSame(s: State, t: State, u: State, p: Packet, limit: int, fin: bool)
    requires Good(s, t, p, limit, fin) && SamePeer(t, u)
    ensures Good(s, u, p, limit, fin)
  {
  }

  lemma AcknowledgeFINGood(s: State, p: Packet, limit: int, fin: bool)
    requires Within(s, limit, fin) && !p.flags.syn
    ensures Good(s, AcknowledgeFIN(s, p.ackNo).0, p, limit, fin)
  {
    AcknowledgeFINSame(s, p);
    hide AcknowledgeFIN;
  }

  lemma RepeatedFINGood(s: State, p: Packet, limit: int, fin: bool)
    requires Within(s, limit, fin) && !p.flags.syn
    ensures Good(s, RepeatedFIN(s, p), p, limit, fin)
  {
    AcknowledgeFINGood(s, p, limit, fin);
    hide AcknowledgeFIN, ObserveECN, AnswerRepeatedFIN, Within;
    var (acked, open) := AcknowledgeFIN(s, p.ackNo);
    OwnDirection(acked, p, false);
    var marked := ObserveECN(acked, p);
    GoodSame(s, acked, marked, p, limit, fin);
    AnswerSame(marked);
    GoodSame(s, marked, AnswerRepeatedFIN(marked), p, limit, fin);
  }

  lemma AnswerSame(s: State)
    ensures SamePeer(s, AnswerRepeatedFIN(s))
  {
  }

  lemma HandleFINGood(s: State, p: Packet, canEstablish: bool, limit: int, fin: bool)
    requires Within(s, limit, fin) && From(p, limit, fin) && p.flags.fin && !p.flags.syn && !s.phase.Listening?
    ensures Good(s, HandleFIN(s, p, canEstablish), p, limit, fin)
  {
    hide Inv, AcknowledgeFIN, ObserveECN, EstablishConnection, ConsumeFIN, Acknowledge, RepeatedFIN;
    RepeatedFINGood(s, p, limit, fin);
    OwnDirection(s, p, canEstablish);
    var (entered, ok) := if s.conn.established then (s, true) else EstablishConnection(s, canEstablish);
    EstablishedNext(s, canEstablish);
    SamePeerWithin(s, entered, limit, fin);
    AcknowledgeFINGood(entered, p, limit, fin);
    var (acked, open) := AcknowledgeFIN(entered, p.ackNo);
    assert Good(s, acked, p, limit, fin);
    AcknowledgeFINSame(entered, p);
    FINAnswered(s, acked, p, limit, fin);
  }

  /** A FIN at a new position is remembered or consumed, after our own was confirmed. */
  lemma FINAnswered(s: State, acked: State, p: Packet, limit: int, fin: bool)
    requires Good(s, acked, p, limit, fin) && !acked.phase.Listening? && From(p, limit, fin) && p.flags.fin
    ensures var marked := ObserveECN(acked, p);
      && Good(s, ConsumeFIN(marked, p.seqNo), p, limit, fin)
      && Good(s, Acknowledge(marked.(conn := marked.conn.(pendingFIN := true, pendingFINSeq := p.seqNo))), p, limit, fin)
  {
    hide ObserveECN, ConsumeFIN, Acknowledge;
    OwnDirection(acked, p, false);
    var marked := ObserveECN(acked, p);
    GoodSame(s, acked, marked, p, limit, fin);
    ConsumeWithin(marked, p.seqNo, limit, fin);
    var waiting := marked.(conn := marked.conn.(pendingFIN := true, pendingFINSeq := p.seqNo));
    OwnDirection(waiting, p, false);
    GoodSame(s, waiting, Acknowledge(waiting), p, limit, fin);
  }

  lemma EstablishedNext(s: State, canEstablish: bool)
    ensures EstablishConnection(s, canEstablish).0.conn.next == s.conn.next
    ensures EstablishConnection(s, canEstablish).0.conn.finSent == s.conn.finSent
  {
  }

  lemma TakeDataGood(s: State, p: Packet, end: nat, limit: int, fin: bool)
    requires Inv(s) && !s.conn.peerFIN && Within(s, limit, fin) && end <= limit
    ensures var t := TakeData(s, p, end).0;
      Within(t, limit, fin) && t.conn == s.conn && t.phase == s.phase
  {
    hide AllHonest, ReportCurrent, CountsAgree, ClosingAgrees;
    var bound := if s.conn.pendingFIN then Min(end, s.conn.pendingFINSeq) else end;
    RB.AcceptBound(s.buffer, p.seqNo, bound, limit);
  }

  lemma HandleDataGood(s: State, p: Packet, end: nat, limit: int, fin: bool)
    requires Inv(s) && s.phase.Open? && s.conn.established && !s.conn.peerFIN
    requires Within(s, limit, fin) && !p.flags.syn && end <= limit
    ensures Good(s, HandleData(s, p, end), p, limit, fin)
  {
    hide Inv, Within, AcknowledgeFIN, ObserveECN, TakeData, ConsumeFIN, AcknowledgeData;
    var inWindow := RB.OverlapsWindow(s.buffer, p.seqNo, end);
    AcknowledgeFINKeeps(s, p.ackNo);
    AcknowledgeFINGood(s, p, limit, fin);
    var (acked, open) := if inWindow then AcknowledgeFIN(s, p.ackNo) else (s, true);
    if open {
      ObserveECNKeeps(acked, p);
      OwnDirection(acked, p, false);
      var marked := if inWindow then ObserveECN(acked, p) else acked;
      SamePeerWithin(acked, marked, limit, fin);
      TakeDataGood(marked, p, end, limit, fin);
      var (taken, added) := TakeData(marked, p, end);
      PendingAtLimit(taken, limit, fin);
      if taken.conn.pendingFIN && taken.buffer.next == taken.conn.pendingFINSeq {
        ConsumeWithin(taken, taken.conn.pendingFINSeq, limit, fin);
      } else {
        OwnDirection(taken, p, true);
        OwnDirection(taken, p, false);
        GoodSame(s, taken, AcknowledgeData(taken, true), p, limit, fin);
        GoodSame(s, taken, AcknowledgeData(taken, false), p, limit, fin);
      }
    }
  }

  lemma PendingAtLimit(s: State, limit: int, fin: bool)
    requires Within(s, limit, fin)
    ensures s.conn.pendingFIN ==> fin && s.conn.pendingFINSeq == limit
  {
  }

  lemma HandleSegmentGood(s: State, p: Packet, end: nat, limit: int, fin: bool)
    requires Inv(s) && s.phase.Open? && s.conn.established && Within(s, limit, fin)
    requires !p.flags.syn && p.size >= 0 && (p.size > 0 ==> end <= limit)
    ensures Good(s, HandleSegment(s, p, end), p, limit, fin)
  {
    hide Inv, Within, AcknowledgeFIN, ObserveECN, HandleData;
    if p.size == 0 {
      AcknowledgeFINGood(s, p, limit, fin);
      var (acked, open) := AcknowledgeFIN(s, p.ackNo);
      OwnDirection(acked, p, false);
      GoodSame(s, acked, ObserveECN(acked, p), p, limit, fin);
    } else if !s.conn.peerFIN {
      HandleDataGood(s, p, end, limit, fin);
    }
  }

  lemma HandlePacketGood(s: State, p: Packet, a: Admission, limit: int, fin: bool)
    requires Inv(s) && Within(s, limit, fin) && From(p, limit, fin)
    ensures Good(s, HandlePacket(s, p, a), p, limit, fin)
  {
    hide Inv, Within, HandleReset, HandleSYN, HandleFIN, HandleSegment, EstablishConnection, ValidSACKOptions;
    OwnDirection(s, p, a.canEstablish);
    GoodSame(s, s, HandleReset(s, p), p, limit, fin);
    if SequenceEnd(p).Some? {
      var end := SequenceEnd(p).value;
      if p.flags.syn {
        HandleSYNWithin(s, p, end, a.canOpen, limit, fin);
      } else if s.phase.Open? {
        if p.flags.fin {
          HandleFINGood(s, p, a.canEstablish, limit, fin);
        } else {
          if !s.conn.established { EstablishKeeps(s, a.canEstablish); }
          EstablishedNext(s, a.canEstablish);
          var (entered, ok) := if s.conn.established then (s, true) else Enter(s, p, end, a.canEstablish);
          if s.conn.established || Enter(s, p, end, a.canEstablish).0 != s {
            SamePeerWithin(s, entered, limit, fin);
          }
          if ok {
            HandleSegmentGood(entered, p, end, limit, fin);
          }
        }
      }
    }
  }
}
