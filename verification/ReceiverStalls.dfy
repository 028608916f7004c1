/** What a receiver can no longer do: one without FIN tries cannot tell its FIN again, one whose
    next byte never comes does not move, and a released one is silent. */
module ReceiverStalls {
  import opened Basics
  import opened Packets
  import opened Receiver
  import opened ReceiverSafety
  import opened ReceiverProgress
  import RB = ReceiveBuffer

  lemma ReleasedSilent(s: State, i: Input)
    requires Inv(s) && s.phase.Released?
    ensures Step(s, i) == s
  {
    hide AllHonest, ReportCurrent, CountsAgree, StreamInv, ClosingAgrees;
  }

  // ---------- Before the handshake is done ----------

  lemma LocalNoSYN(s: State, i: Input)
    requires Inv(s) && !i.Arrives?
    ensures var t := Step(s, i); s.out <= t.out && forall k :: |s.out| <= k < |t.out| ==> !t.out[k].flags.syn
  {
    hide Inv;
  }

  // ---------- The next byte ----------

  /** Payload behind a gap does not move the next expected position. */
  lemma GapStays(b: RB.View, start: nat, end: nat)
    requires RB.Valid(b) && b.next < start
    ensures RB.AcceptBytes(b, start, end).0.next == b.next
  {
    hide RB.AcceptBytes, RB.Valid, RB.Positions;
    RB.AcceptRefinesSet(b, start, end);
    RB.AcceptKeepsValid(b, start, end);
    RB.NextIsLeastMissing(b);
    var after := RB.AcceptBytes(b, start, end).0;
    RB.NextIsLeastMissing(after);
    assert b.next !in RB.Received(after);
  }

  lemma DataStays(s: State, p: Packet, end: nat)
    requires RB.Valid(s.buffer) && s.buffer.next < p.seqNo && !s.conn.pendingFIN
    ensures HandleData(s, p, end).buffer.next == s.buffer.next
  {
    hide AcknowledgeFIN, ObserveECN, AcknowledgeData, RB.AcceptBytes, RB.Valid;
    var inWindow := RB.OverlapsWindow(s.buffer, p.seqNo, end);
    EntryFrame(s, p.ackNo, false);
    var acked := if inWindow then AcknowledgeFIN(s, p.ackNo).0 else s;
    ECNBuffer(acked, p);
    GapStays(s.buffer, p.seqNo, end);
    var taken := TakeData(if inWindow then ObserveECN(acked, p) else acked, p, end).0;
    AnswerBuffer(taken, true);
    AnswerBuffer(taken, false);
  }

  lemma ECNBuffer(s: State, p: Packet)
    ensures var t := ObserveECN(s, p); t.buffer == s.buffer && t.conn == s.conn
  {
  }

  lemma AnswerBuffer(s: State, mayDelay: bool)
    ensures AcknowledgeData(s, mayDelay).buffer == s.buffer
  {
  }

  /** A packet without the next byte and without a FIN does not move the receiver. */
  lemma NextStays(s: State, p: Packet, a: Admission)
    requires Inv(s) && !s.phase.Listening? && !s.conn.pendingFIN && !p.flags.fin
    requires p.size > 0 ==> s.buffer.next < p.seqNo
    ensures HandlePacket(s, p, a).buffer.next == s.buffer.next
  {
    hide HandleData, ValidSACKOptions, Inv, AcknowledgeFIN, ObserveECN;
    BufferIsValid(s);
    EntryFrame(s, p.ackNo, a.canEstablish);
    var entered := if s.conn.established then s else EstablishConnection(s, a.canEstablish).0;
    EntryFrame(entered, p.ackNo, a.canEstablish);
    ECNBuffer(AcknowledgeFIN(entered, p.ackNo).0, p);
    if SequenceEnd(p).Some? && p.size > 0 {
      DataStays(entered, p, SequenceEnd(p).value);
    }
  }

  // ---------- A FIN that may not be repeated ----------

  /** Our FIN was sent as often as it may be. */
  predicate FINSpent(s: State) {
    s.conn.finSent && s.conn.finTimeouts >= s.config.maxFINRetries
  }

  /** Nothing was emitted but acknowledgements and resets behind our FIN. */
  ghost predicate Mutters(s: State, t: State) {
    && FINSpent(t) && t.conn.next == s.conn.next && s.out <= t.out
    && forall k :: |s.out| <= k < |t.out| ==> !t.out[k].flags.fin && !t.out[k].flags.syn && t.out[k].seqNo == s.conn.next
  }

  lemma LocalMutters(s: State, i: Input)
    requires Inv(s) && FINSpent(s) && !i.Arrives? && !s.phase.Listening?
    ensures Mutters(s, Step(s, i))
  {
    hide AllHonest, ReportCurrent, CountsAgree, StreamInv;
  }

  /** The parts that neither emit nor touch our FIN. */
  ghost predicate Same(s: State, t: State) {
    && t.out == s.out && t.config == s.config && t.conn.finTimeouts == s.conn.finTimeouts && OwnSame(s, t)
  }

  lemma SilentSame(s: State, p: Packet, end: nat)
    ensures Same(s, AcknowledgeFIN(s, p.ackNo).0) && Same(s, ObserveECN(s, p)) && Same(s, TakeData(s, p, end).0)
    ensures Same(s, HandleReset(s, p))
  {
  }

  lemma AnswerMutters(s: State, mayDelay: bool)
    requires FINSpent(s)
    ensures Mutters(s, Acknowledge(s)) && Mutters(s, AcknowledgeData(s, mayDelay))
  {
  }

  lemma MuttersAfter(s: State, t: State, u: State)
    requires Same(s, t) && Mutters(t, u)
    ensures Mutters(s, u)
  {
  }

  /** Unless the peer's FIN is consumed. */
  lemma FINMutters(s: State, p: Packet, canEstablish: bool)
    requires FINSpent(s) && s.conn.established && !s.conn.peerFIN
    ensures var t := HandleFIN(s, p, canEstablish); t.conn.peerFIN || Mutters(s, t)
  {
    hide AcknowledgeFIN, ObserveECN, ConsumeFIN, Acknowledge, FINFits, Same, Mutters;
    StillMutters(s);
    SilentSame(s, p, 0);
    var acked := AcknowledgeFIN(s, p.ackNo).0;
    SilentSame(acked, p, 0);
    var marked := ObserveECN(acked, p);
    SameTwice(s, acked, marked);
    SameMutters(s, acked);
    var waiting := marked.(conn := marked.conn.(pendingFIN := true, pendingFINSeq := p.seqNo));
    SameWaiting(s, marked, p.seqNo);
    AnswerMutters(waiting, false);
    MuttersAfter(s, waiting, Acknowledge(waiting));
    ConsumedPeer(marked, p.seqNo);
  }

  lemma StillMutters(s: State)
    requires FINSpent(s)
    ensures Mutters(s, s)
  {
  }

  lemma SameMutters(s: State, t: State)
    requires FINSpent(s) && Same(s, t)
    ensures FINSpent(t) && Mutters(s, t)
  {
  }

  lemma SameTwice(s: State, t: State, u: State)
    requires Same(s, t) && Same(t, u)
    ensures Same(s, u)
  {
  }

  lemma SameWaiting(s: State, t: State, sequence: nat)
    requires FINSpent(s) && Same(s, t)
    ensures var waiting := t.(conn := t.conn.(pendingFIN := true, pendingFINSeq := sequence)); Same(s, waiting) && FINSpent(waiting)
  {
  }

  lemma ConsumedPeer(s: State, sequence: nat)
    ensures ConsumeFIN(s, sequence).conn.peerFIN
  {
  }

  lemma DataMutters(s: State, p: Packet, end: nat)
    requires FINSpent(s)
    ensures var t := HandleData(s, p, end); t.conn.peerFIN || Mutters(s, t)
  {
    hide AcknowledgeFIN, ObserveECN, TakeData, ConsumeFIN, AcknowledgeData, Same, Mutters, FINSpent;
    SilentSame(s, p, end);
    var inWindow := RB.OverlapsWindow(s.buffer, p.seqNo, end);
    SameSelf(s);
    var acked := if inWindow then AcknowledgeFIN(s, p.ackNo).0 else s;
    SameMutters(s, acked);
    SilentSame(acked, p, end);
    SameSelf(acked);
    var marked := if inWindow then ObserveECN(acked, p) else acked;
    SameTwice(s, acked, marked);
    SilentSame(marked, p, end);
    var taken := TakeData(marked, p, end).0;
    SameTwice(s, marked, taken);
    SameMutters(s, taken);
    AnswerMutters(taken, true);
    AnswerMutters(taken, false);
    MuttersAfter(s, taken, AcknowledgeData(taken, true));
    MuttersAfter(s, taken, AcknowledgeData(taken, false));
    ConsumedPeer(taken, taken.conn.pendingFINSeq);
  }

  lemma SameSelf(s: State)
    ensures Same(s, s)
  {
  }

  /** Whatever arrives, such a receiver only mutters until it consumes the peer's FIN. */
  lemma ArrivalMutters(s: State, p: Packet, a: Admission)
    requires Inv(s) && FINSpent(s) && !s.conn.peerFIN && !s.phase.Listening?
    ensures var t := HandlePacket(s, p, a); t.conn.peerFIN || Mutters(s, t)
  {
    hide HandleReset, HandleFIN, HandleData, AcknowledgeFIN, ObserveECN, ValidSACKOptions, Same, Mutters, Inv;
    StillMutters(s);
    SpentEstablished(s);
    SilentSame(s, p, 0);
    SameMutters(s, HandleReset(s, p));
    FINMutters(s, p, a.canEstablish);
    var acked := AcknowledgeFIN(s, p.ackNo).0;
    SameMutters(s, acked);
    SilentSame(acked, p, 0);
    SameTwice(s, acked, ObserveECN(acked, p));
    SameMutters(s, ObserveECN(acked, p));
    if SequenceEnd(p).Some? {
      DataMutters(s, p, SequenceEnd(p).value);
    }
  }

  lemma SpentEstablished(s: State)
    requires Inv(s) && FINSpent(s)
    ensures s.conn.established
  {
    hide AllHonest, ReportCurrent, CountsAgree, StreamInv, Armed;
  }

  // ---------- Nothing to say ----------

  /** After our FIN no acknowledgement is delayed. */
  ghost predicate NoDelay(s: State) {
    s.conn.finSent ==> s.feedback.waitingSegments == 0
  }

  /** Our FIN needs no repeat, or has none left. */
  ghost predicate FINSettled(s: State) {
    s.conn.finSent && (s.conn.finAcked || FINSpent(s)) && NoDelay(s)
  }

  /** Of its own such a receiver says nothing but a reset. */
  lemma LocalSettled(s: State, i: Input)
    requires Inv(s) && FINSettled(s) && !i.Arrives?
    ensures var t := Step(s, i);
      && FINSettled(t) && s.out <= t.out
      && forall k :: |s.out| <= k < |t.out| ==> t.out[k].flags.rst
  {
    hide AllHonest, ReportCurrent, CountsAgree, StreamInv;
  }

  /** No acknowledgement becomes delayed from `s` to `t` once our FIN is sent. */
  ghost predicate Prompt(s: State, t: State) {
    NoDelay(s) ==> NoDelay(t)
  }

  /** Waiting segments and our FIN are as they were, or nothing waits. */
  ghost predicate SameDelay(s: State, t: State) {
    t.feedback.waitingSegments == 0
    || (t.feedback.waitingSegments == s.feedback.waitingSegments && t.conn.finSent == s.conn.finSent)
  }

  lemma SameDelayOps(s: State, p: Packet, end: nat, canEstablish: bool)
    ensures SameDelay(s, AcknowledgeFIN(s, p.ackNo).0) && SameDelay(s, ObserveECN(s, p)) && SameDelay(s, TakeData(s, p, end).0)
    ensures SameDelay(s, EstablishConnection(s, canEstablish).0) && SameDelay(s, HandleReset(s, p)) && SameDelay(s, Acknowledge(s))
  {
  }

  lemma SameDelayTwice(s: State, t: State, u: State)
    requires SameDelay(s, t) && SameDelay(t, u)
    ensures SameDelay(s, u)
  {
  }

  lemma ConsumePrompt(s: State, sequence: nat)
    requires s.phase.Open?
    ensures SameDelay(s, ConsumeFIN(s, sequence))
  {
    hide Reply;
  }

  lemma AnswerPrompt(s: State)
    ensures SameDelay(s, AnswerRepeatedFIN(s))
  {
    hide Reply;
  }

  lemma HandleFINPrompt(s: State, p: Packet, canEstablish: bool)
    requires s.phase.Open?
    ensures SameDelay(s, HandleFIN(s, p, canEstablish))
  {
    hide AcknowledgeFIN, ObserveECN, ConsumeFIN, Acknowledge, EstablishConnection, AnswerRepeatedFIN, FINFits, SameDelay;
    DelayStays(s);
    SameDelayOps(s, p, 0, canEstablish);
    var first := AcknowledgeFIN(s, p.ackNo).0;
    SameDelayOps(first, p, 0, false);
    AnswerPrompt(ObserveECN(first, p));
    SameDelayTwice(s, first, ObserveECN(first, p));
    SameDelayTwice(s, ObserveECN(first, p), AnswerRepeatedFIN(ObserveECN(first, p)));
    var entered := if s.conn.established then s else EstablishConnection(s, canEstablish).0;
    OpenAfter(s, canEstablish, p.ackNo);
    if entered.phase.Open? {
      OpenAfter(entered, canEstablish, p.ackNo);
    }
    SameDelayOps(entered, p, 0, false);
    var acked := AcknowledgeFIN(entered, p.ackNo).0;
    SameDelayTwice(s, entered, acked);
    SameDelayOps(acked, p, 0, false);
    var marked := ObserveECN(acked, p);
    SameDelayTwice(s, acked, marked);
    ECNPhase(acked, p);
    if marked.phase.Open? {
      ConsumePrompt(marked, p.seqNo);
      SameDelayTwice(s, marked, ConsumeFIN(marked, p.seqNo));
    }
    var waiting := marked.(conn := marked.conn.(pendingFIN := true, pendingFINSeq := p.seqNo));
    WaitingDelay(s, marked, p.seqNo);
    SameDelayOps(waiting, p, 0, false);
    SameDelayTwice(s, waiting, Acknowledge(waiting));
  }

  lemma DelayStays(s: State)
    ensures SameDelay(s, s)
  {
  }

  lemma WaitingDelay(s: State, t: State, sequence: nat)
    requires SameDelay(s, t)
    ensures SameDelay(s, t.(conn := t.conn.(pendingFIN := true, pendingFINSeq := sequence)))
  {
  }

  lemma OpenAfter(s: State, canEstablish: bool, ack: nat)
    requires s.phase.Open?
    ensures EstablishConnection(s, canEstablish).1 ==> EstablishConnection(s, canEstablish).0.phase.Open?
    ensures AcknowledgeFIN(s, ack).1 ==> AcknowledgeFIN(s, ack).0.phase.Open?
  {
  }

  lemma ECNPhase(s: State, p: Packet)
    ensures ObserveECN(s, p).phase == s.phase
  {
  }

  lemma HandleDataPrompt(s: State, p: Packet, end: nat)
    requires Inv(s) && s.phase.Open? && s.conn.established && !s.conn.peerFIN
    ensures Prompt(s, HandleData(s, p, end))
  {
    hide AcknowledgeFIN, ObserveECN, ConsumeFIN, TakeData, AcknowledgeData, Inv, SameDelay, NoDelay;
    DelayStays(s);
    var inWindow := RB.OverlapsWindow(s.buffer, p.seqNo, end);
    AcknowledgeFINKeeps(s, p.ackNo);
    SameDelayOps(s, p, end, false);
    var acked := if inWindow then AcknowledgeFIN(s, p.ackNo).0 else s;
    SameDelayPrompt(s, acked);
    ObserveECNKeeps(acked, p);
    SameDelayOps(acked, p, end, false);
    DelayStays(acked);
    var marked := if inWindow then ObserveECN(acked, p) else acked;
    SameDelayTwice(s, acked, marked);
    SameDelayOps(marked, p, end, false);
    var taken := TakeData(marked, p, end).0;
    SameDelayTwice(s, marked, taken);
    if acked.phase.Open? {
      TakeDataKeeps(marked, p, end);
      ClosingState(taken);
      ConsumePrompt(taken, taken.conn.pendingFINSeq);
      SameDelayTwice(s, taken, ConsumeFIN(taken, taken.conn.pendingFINSeq));
      SameDelayPrompt(s, ConsumeFIN(taken, taken.conn.pendingFINSeq));
      SameDelayPrompt(s, taken);
      DelayedPrompt(taken, true);
      DelayedPrompt(taken, false);
    }
  }

  lemma SameDelayPrompt(s: State, t: State)
    requires SameDelay(s, t)
    ensures Prompt(s, t)
  {
  }

  lemma DelayedPrompt(s: State, mayDelay: bool)
    requires s.conn.finSent ==> !s.conn.tcp.Established?
    ensures Prompt(s, AcknowledgeData(s, mayDelay))
  {
  }

  lemma NoDelayStep(s: State, i: Input)
    requires Inv(s) && NoDelay(s)
    ensures NoDelay(Step(s, i))
  {
    hide Inv, HandlePacket;
    match i
    case Arrives(p, a) => ArrivalPrompt(s, p, a);
    case _ => LocalPrompt(s, i);
  }

  lemma LocalPrompt(s: State, i: Input)
    requires !i.Arrives? && NoDelay(s)
    ensures NoDelay(Step(s, i))
  {
  }

  lemma SYNPrompt(s: State, p: Packet, canOpen: bool)
    ensures forall end: nat :: Prompt(s, HandleSYN(s, p, end, canOpen))
  {
    hide SynAck;
  }

  lemma ArrivalPrompt(s: State, p: Packet, a: Admission)
    requires Inv(s) && NoDelay(s)
    ensures NoDelay(HandlePacket(s, p, a))
  {
    hide Inv, HandleReset, HandleFIN, HandleData, AcknowledgeFIN, ObserveECN, EstablishConnection, ValidSACKOptions, SameDelay, NoDelay;
    SYNPrompt(s, p, a.canOpen);
    SameDelayOps(s, p, 0, a.canEstablish);
    SameDelayPrompt(s, HandleReset(s, p));
    if s.phase.Open? {
      HandleFINPrompt(s, p, a.canEstablish);
      SameDelayPrompt(s, HandleFIN(s, p, a.canEstablish));
      if !s.conn.established {
        EstablishKeeps(s, a.canEstablish);
      }
      var entered := if s.conn.established then s else EstablishConnection(s, a.canEstablish).0;
      DelayStays(s);
      SameDelayPrompt(s, entered);
      SameDelayOps(entered, p, 0, false);
      var acked := AcknowledgeFIN(entered, p.ackNo).0;
      SameDelayPrompt(entered, acked);
      SameDelayOps(acked, p, 0, false);
      SameDelayPrompt(acked, ObserveECN(acked, p));
      if SequenceEnd(p).Some? && entered.phase.Open? && entered.conn.established && !entered.conn.peerFIN {
        HandleDataPrompt(entered, p, SequenceEnd(p).value);
      }
    }
  }
}
