/** What a sender has emitted of its stream, why a drained stream is never left unfinished, and
    what one chosen input achieves: the facts about this end that `TcpProgress` builds on. */
module SenderProgress {
  import opened Basics
  import opened Packets
  import opened Sender
  import opened SenderSafety
  import opened SenderSteps
  import SB = SendBuffer

  // ---------- Everything handed out was emitted ----------

  predicate IsSyn(p: Packet) {
    p.flags.syn && ValidSACKOptions(p)
  }

  /** A data packet whose payload covers position `x`. */
  predicate Carries(p: Packet, x: int) {
    && p.flags.ack && !p.flags.syn && !p.flags.fin && !p.flags.rst && ValidSACKOptions(p)
    && p.size > 0 && p.seqNo <= x < p.seqNo + p.size
  }

  ghost predicate SynEmitted(out: seq<Packet>) {
    exists k :: 0 <= k < |out| && IsSyn(out[k])
  }

  ghost predicate PayloadEmitted(out: seq<Packet>, x: int) {
    exists k :: 0 <= k < |out| && Carries(out[k], x)
  }

  ghost predicate SynKept(s: State) {
    s.hs.started && !s.hs.synWaiting && !s.hs.completed && !s.terminated ==> SynEmitted(s.out)
  }

  ghost predicate DataKept(s: State) {
    forall x :: 1 <= x < DataEnd(s.conn, s.space) ==> PayloadEmitted(s.out, x)
  }

  lemma EmittedGrows(before: seq<Packet>, after: seq<Packet>)
    requires before <= after
    ensures SynEmitted(before) ==> SynEmitted(after)
    ensures forall x :: PayloadEmitted(before, x) ==> PayloadEmitted(after, x)
  {
    if SynEmitted(before) {
      var k :| 0 <= k < |before| && IsSyn(before[k]);
      assert after[k] == before[k];
    }
    forall x | PayloadEmitted(before, x) ensures PayloadEmitted(after, x) {
      var k :| 0 <= k < |before| && Carries(before[k], x);
      assert after[k] == before[k];
    }
  }

  lemma StepGrows(s: State, i: Input)
    requires Inv(s)
    ensures s.out <= Step(s, i).out
  {
    StepCorrect(s, i);
    hide Inv, Step, Honest;
  }

  /** Only a new send extends the payload positions; the start of the handshake takes the first. */
  lemma SameEnd(s: State, i: Input)
    requires Inv(s) && !i.SendFires? && !i.DoEstablish?
    ensures DataEnd(Step(s, i).conn, Step(s, i).space) == DataEnd(s.conn, s.space)
  {
    hide Inv, Honest, Emitted, SetSource, Close, Shutdown, SynSend, SynTimeout;
    hide RetransmitData, RepairHole, FinSend, RetryFIN, WaitExpired, HandlePacket;
    match i
    case DoSetSource(size) => if size <= MAX_INT64 { SetSourceSteady(s, size); }
    case DoClose => CloseSteady(s);
    case DoShutdown => ShutdownSteady(s, Aborted);
    case SynSendFires => SynSteady(s);
    case SynTimerFires => SynSteady(s);
    case DataTimerFires => RetransmitSteady(s, false);
    case Repair(hole) => AccountingHolds(s); RepairSteady(s, hole);
    case FinSendFires => ClosingTimersSteady(s);
    case FinTimerFires => ClosingTimersSteady(s);
    case WaitTimerFires => ClosingTimersSteady(s);
    case Arrives(p, c) => HandlePacketCorrect(s, p, c);
  }

  lemma AccountingHolds(s: State)
    requires Inv(s)
    ensures Accounting(s.terminated, s.hs, s.conn, s.space, s.stream)
    ensures s.loss.recovering ==> s.hs.completed
  {
    hide Karn;
  }

  lemma DataStep(s: State, i: Input)
    requires Inv(s) && DataKept(s)
    ensures DataKept(Step(s, i))
  {
    hide Inv, Step, PayloadEmitted;
    StepGrows(s, i);
    EmittedGrows(s.out, Step(s, i).out);
    match i
    case SendFires(limit, pipe) => SentEmitted(s, limit, pipe);
    case DoEstablish => EstablishEnd(s);
    case _ => SameEnd(s, i);
  }

  lemma EstablishEnd(s: State)
    requires Inv(s)
    ensures var t := Step(s, DoEstablish); t == s || DataEnd(t.conn, t.space) == 1
  {
    hide Karn, Reductions;
  }

  lemma SentEmitted(s: State, limit: Option<nat>, pipe: nat)
    requires Inv(s)
    ensures var t := Step(s, SendFires(limit, pipe));
      forall x :: DataEnd(s.conn, s.space) <= x < DataEnd(t.conn, t.space) ==> PayloadEmitted(t.out, x)
  {
    var t := Step(s, SendFires(limit, pipe));
    var size := NextPayloadSize(s, limit, pipe);
    if !(s.terminated || s.conn.finSent || !s.hs.completed || s.stream.unsent.None?) && size > 0 {
      hide Inv, QueueSegment, NextPayloadSize;
      SentAs(s, limit, pipe, size);
      var sent := Emit(Marked(s, size), NewPacket(s, size));
      QueueSteady(sent);
      assert t.out[|s.out|] == sent.out[|s.out|];
      forall x | DataEnd(s.conn, s.space) <= x < DataEnd(t.conn, t.space) ensures PayloadEmitted(t.out, x) {
        assert Carries(t.out[|s.out|], x);
      }
    }
  }

  /** The first SYN leaves `synWaiting` behind, and nothing else does in an open handshake. */
  lemma SynStep(s: State, i: Input)
    requires Inv(s) && SynKept(s)
    ensures SynKept(Step(s, i))
  {
    hide Inv, Step, SynEmitted;
    StepGrows(s, i);
    EmittedGrows(s.out, Step(s, i).out);
    WaitingStays(s, i);
  }

  lemma WaitingStays(s: State, i: Input)
    requires Inv(s)
    ensures var t := Step(s, i);
      t.hs.started && !t.hs.synWaiting && !t.hs.completed && !t.terminated ==>
        (s.hs.started && !s.hs.synWaiting && !s.hs.completed && !s.terminated) || SynEmitted(t.out)
  {
    hide Inv, Step, Honest, Emitted, HandlePacket;
    StepCorrect(s, i);
    if !s.hs.completed && !s.terminated {
      match i
      case SynSendFires => FirstSynSent(s);
      case Arrives(p, c) => ArrivalWaits(s, p, c); ArrivesIs(s, p, c);
      case _ => LocalWaits(s, i);
    }
  }

  lemma ArrivesIs(s: State, p: Packet, c: Choices)
    ensures Step(s, Arrives(p, c)) == HandlePacket(s, p, c)
  {
    hide HandlePacket;
  }

  lemma FirstSynSent(s: State)
    requires Inv(s) && !s.hs.completed && !s.terminated
    ensures var t := Step(s, SynSendFires); t == s || SynEmitted(t.out)
  {
    hide Karn, Reductions;
    var t := Step(s, SynSendFires);
    if s.hs.synWaiting {
      assert IsSyn(t.out[|s.out|]);
    }
  }

  lemma ArrivalWaits(s: State, p: Packet, c: Choices)
    requires !s.hs.completed && !s.terminated
    ensures var t := HandlePacket(s, p, c); t == s || t.terminated || t.hs.completed
  {
    hide HandleACK;
  }

  /** Before the handshake ends no other event can have been armed. */
  lemma LocalWaits(s: State, i: Input)
    requires Inv(s) && !s.hs.completed && !s.terminated && !i.Arrives? && !i.SynSendFires?
    ensures var t := Step(s, i);
      t.terminated || i.DoEstablish? || (t.hs.started == s.hs.started && t.hs.synWaiting == s.hs.synWaiting)
    ensures i.DoEstablish? ==> Step(s, i) == s || Step(s, i).hs.synWaiting
  {
    AccountingHolds(s);
    hide Karn, Reductions, StartFIN, RecordRetry, HandlePacket;
  }

  // ---------- A drained stream is finished at once ----------

  /** With every payload byte confirmed the transfer has been recorded as successful. */
  ghost predicate Tidy(s: State) {
    !s.terminated && s.hs.completed && s.stream.unsent.Some? && s.stream.remaining == 0 ==> s.stream.completed
  }

  /** The stream is untouched, or the connection is over. */
  ghost predicate Idle(s: State, t: State) {
    && (s.terminated ==> t.terminated)
    && (t.terminated || (t.stream == s.stream && t.hs.completed == s.hs.completed && (s.conn.finSent ==> t.conn.finSent)))
  }

  lemma IdleTidy(s: State, t: State)
    requires Idle(s, t) && Tidy(s)
    ensures Tidy(t)
  {
  }

  lemma QueueTidy(s: State)
    requires Tidy(s) || !s.conn.finSent
    ensures Tidy(QueueSegment(s))
  {
  }

  lemma StartFINIdle(s: State)
    ensures Idle(s, StartFIN(s))
  {
  }

  lemma RepairIdle(s: State, hole: SACKBlock)
    ensures Idle(s, RepairHole(s, hole))
  {
  }

  lemma RetransmitIdle(s: State, restart: bool)
    ensures Idle(s, RetransmitData(s)) && Idle(s, FastRetransmitOldest(s, restart))
    ensures FastRetransmitOldest(s, restart).terminated || FastRetransmitOldest(s, restart).conn == s.conn
  {
  }

  lemma ReduceIdle(s: State, ack: nat, already: bool, p: Packet, c: Choices)
    ensures Idle(s, ReduceOnce(s, ack, already)) && Idle(s, DuplicateACK(s, c).0) && Idle(s, ObserveECN(s, p, c))
    ensures DuplicateACK(s, c).0.conn == s.conn && ObserveECN(s, p, c).conn == s.conn && ReduceOnce(s, ack, already).conn == s.conn
    ensures ObserveECN(s, p, c).loss.sack == s.loss.sack && DuplicateACK(s, c).0.loss.sack == s.loss.sack
  {
  }

  lemma ClosingIdle(s: State, ack: nat)
    ensures Idle(s, AcknowledgeFIN(s, ack)) && Idle(s, FinSend(s)) && Idle(s, RetryFIN(s)) && Idle(s, WaitExpired(s))
  {
  }

  lemma RepeatedACKTidy(s: State, p: Packet, c: Choices, windowUnchanged: bool)
    requires Tidy(s)
    ensures Tidy(RepeatedACK(s, p, c, windowUnchanged))
  {
    hide DuplicateACK, FastRetransmitOldest, QueueSegment;
    var counted := DuplicateACK(s, c).0;
    ReduceIdle(s, 0, false, p, c);
    IdleTidy(s, counted);
    RetransmitIdle(counted, true);
    IdleTidy(counted, FastRetransmitOldest(counted, true));
    QueueTidy(s);
    QueueTidy(counted);
    QueueTidy(FastRetransmitOldest(counted, true));
  }

  /** The stream is finished, or a later part of the same packet's handling will look at it. */
  ghost predicate LeftOpen(t: State, una: int, later: bool) {
    Tidy(t) || (!t.conn.finSent && t.space.una == una && later)
  }

  /** Only loss guards, timers, the probe and the log differ, or the connection is over. */
  ghost predicate SameFlow(s: State, t: State) {
    && Idle(s, t)
    && (t.terminated || (t.conn == s.conn && t.space.una == s.space.una && t.space.receive == s.space.receive
                         && t.space.next == s.space.next && t.loss.sack == s.loss.sack))
  }

  lemma FastFlow(s: State)
    ensures SameFlow(s, FastRetransmitOldest(s, false))
  {
  }

  lemma MovedFlow(s: State, ack: nat)
    requires s.space.una <= ack
    ensures var t := ReleaseBytes(ObserveRTTACK(s, ack), ack);
      t.conn == s.conn && t.space.una == ack && t.loss.sack == s.loss.sack
  {
  }

  lemma QueueFlow(s: State)
    ensures var t := QueueSegment(s);
      && t.loss.sack == s.loss.sack && t.space.una == s.space.una && t.terminated == s.terminated
      && t.conn.peerFIN == s.conn.peerFIN && t.space.receive == s.space.receive && s.space.next <= t.space.next
  {
  }

  /** New bytes confirmed. */
  lemma AcknowledgeDataTidy(s: State, p: Packet, c: Choices)
    requires s.space.una <= p.ackNo && !s.conn.finSent
    ensures LeftOpen(AcknowledgeData(s, p, c), p.ackNo, s.loss.sack || p.flags.fin)
  {
    hide FastRetransmitOldest, QueueSegment, ReleaseBytes, ObserveRTTACK;
    ObserveRTTFrame(s, p.ackNo);
    MovedFlow(s, p.ackNo);
    var moved := ReleaseBytes(ObserveRTTACK(s, p.ackNo), p.ackNo);
    FastFlow(moved);
    var retried := if c.retransmitOldest then FastRetransmitOldest(moved, false) else moved;
    if retried.terminated {
      QueueFlow(retried);
    } else {
      QueueTidy(retried);
    }
  }

  lemma HandleDataACKTidy(s: State, p: Packet, c: Choices)
    requires Tidy(s) && !s.conn.finSent && p.ackNo <= MAX_UINT64
    ensures LeftOpen(HandleDataACK(s, p, c), p.ackNo, p.ackNo > s.space.una && (s.loss.sack || p.flags.fin))
  {
    hide RepeatedACK, AcknowledgeData;
    var updated := UpdateWindow(s, p);
    assert Tidy(updated);
    if p.ackNo == s.space.una {
      RepeatedACKTidy(updated, p, c, p.window == s.space.peerWindow);
    } else if p.ackNo > s.space.una {
      AcknowledgeDataTidy(updated, p, c);
    }
  }

  /** A FIN at the next expected position finishes a drained stream on its way; one that was
      consumed before leaves it to what follows. */
  lemma HandleFINTidy(s: State, p: Packet, end: nat, una: int, later: bool)
    requires LeftOpen(s, una, later) && !s.terminated
    requires p.size == 0 && p.flags.ack && p.ackNo <= s.space.next
    requires s.conn.peerFIN || p.seqNo == s.space.receive
    ensures LeftOpen(HandleFIN(s, p, end), una, later && s.conn.peerFIN)
  {
    hide StartFIN, QueueSegment;
    if !s.conn.peerFIN && !s.conn.finSent {
      var sent := EmitACK(ConsumeFIN(s, end, CloseWait, true));
      QueueTidy(sent);
      StartFINIdle(QueueSegment(sent));
    }
  }

  lemma FollowUpTidy(s: State, repeatedFIN: bool, c: Choices, advanced: bool)
    requires LeftOpen(s, s.space.una, s.loss.sack || repeatedFIN)
    ensures Tidy(FollowUp(s, repeatedFIN, c, advanced))
  {
    hide ObserveSACK, QueueSegment;
    SACKFlow(s, c, advanced);
    var repaired := if s.loss.sack then ObserveSACK(s, c, advanced) else s;
    if repaired.terminated {
      QueueFlow(repaired);
    } else {
      QueueTidy(repaired);
    }
  }

  lemma SACKFlow(s: State, c: Choices, advanced: bool)
    ensures SameFlow(s, ObserveSACK(s, c, advanced))
  {
    hide ReduceOnce, RepairHole;
    var before := if advanced then 0 else s.loss.sackDuplicates;
    var counted := s.(loss := s.loss.(sackDuplicates := before + 1, duplicates := before + 1));
    var already := s.loss.ecn && s.space.una < s.loss.reductionEnd;
    var entered := counted.(loss := counted.loss.(recovering := true, recoveryEnd := s.space.next, until := s.space.next));
    ReduceFlow(entered, s.space.una, already);
    if c.hole.Some? {
      RepairFlow(ReduceOnce(entered, s.space.una, already), c.hole.value);
    }
  }

  lemma ReduceFlow(s: State, ack: nat, already: bool)
    ensures SameFlow(s, ReduceOnce(s, ack, already))
  {
  }

  lemma RepairFlow(s: State, hole: SACKBlock)
    ensures SameFlow(s, RepairHole(s, hole))
  {
  }

  /** What the peer's direction looks like is not the business of its acknowledgements. */
  ghost predicate SamePeer(s: State, t: State) {
    t.terminated || (t.conn.peerFIN == s.conn.peerFIN && t.space.receive == s.space.receive && s.space.next <= t.space.next && t.loss.sack == s.loss.sack)
  }

  lemma HandleDataACKPeer(s: State, p: Packet, c: Choices)
    requires p.ackNo <= MAX_UINT64
    ensures SamePeer(s, HandleDataACK(s, p, c)) && (s.terminated ==> HandleDataACK(s, p, c).terminated)
  {
    hide DuplicateACK, FastRetransmitOldest, QueueSegment, ReleaseBytes, ObserveRTTACK;
    var updated := UpdateWindow(s, p);
    ReduceIdle(updated, 0, false, p, c);
    RepeatedPeer(updated, p, c, p.window == s.space.peerWindow);
    if p.ackNo > s.space.una {
      AdvancedPeer(updated, p, c);
    }
  }

  lemma RepeatedPeer(s: State, p: Packet, c: Choices, windowUnchanged: bool)
    ensures SamePeer(s, RepeatedACK(s, p, c, windowUnchanged)) && (s.terminated ==> RepeatedACK(s, p, c, windowUnchanged).terminated)
  {
    hide FastRetransmitOldest, QueueSegment;
    var counted := DuplicateACK(s, c).0;
    FastPeer(counted, true);
    QueueFlow(s);
    QueueFlow(counted);
    QueueFlow(FastRetransmitOldest(counted, true));
  }

  lemma FastPeer(s: State, restart: bool)
    ensures SamePeer(s, FastRetransmitOldest(s, restart)) && (s.terminated ==> FastRetransmitOldest(s, restart).terminated)
  {
  }

  lemma AdvancedPeer(s: State, p: Packet, c: Choices)
    requires s.space.una <= p.ackNo
    ensures SamePeer(s, AcknowledgeData(s, p, c)) && (s.terminated ==> AcknowledgeData(s, p, c).terminated)
  {
    hide FastRetransmitOldest, QueueSegment;
    ObserveRTTFrame(s, p.ackNo);
    var moved := ReleaseBytes(ObserveRTTACK(s, p.ackNo), p.ackNo);
    FastPeer(moved, false);
    QueueFlow(moved);
    QueueFlow(FastRetransmitOldest(moved, false));
  }

  lemma AcknowledgeFINPeer(s: State, ack: nat)
    ensures SamePeer(s, AcknowledgeFIN(s, ack))
    ensures var t := AcknowledgeFIN(s, ack); t.terminated || (t.conn.finSent == s.conn.finSent && t.space == s.space)
  {
  }

  lemma HandleACKTidy(s: State, p: Packet, end: nat, c: Choices)
    requires Tidy(s) && !s.terminated && AcceptableACK(s, p)
    requires !(p.flags.fin && s.conn.peerFIN && p.seqNo == s.space.receive)
    ensures Tidy(HandleACK(s, p, end, c))
  {
    hide ObserveECN, HandleDataACK, AcknowledgeFIN, HandleFIN, FollowUp;
    ECNFrame(s, p, c);
    ReduceIdle(s, 0, false, p, c);
    var marked := ObserveECN(s, p, c);
    IdleTidy(s, marked);
    if p.seqNo == s.space.receive || RepeatedFIN(s, p, end) {
      var later := p.ackNo > s.space.una && (s.loss.sack || p.flags.fin);
      var acked := if s.conn.finSent then AcknowledgeFIN(marked, p.ackNo) else HandleDataACK(marked, p, c);
      if s.conn.finSent {
        ClosingIdle(marked, p.ackNo);
        IdleTidy(marked, acked);
        AcknowledgeFINPeer(marked, p.ackNo);
      } else {
        HandleDataACKTidy(marked, p, c);
        HandleDataACKPeer(marked, p, c);
      }
      ClosedTidy(s, acked, p, end, c, later && !s.conn.finSent);
    }
  }

  /** The FIN part and the follow-up close what the acknowledgement left open. */
  lemma ClosedTidy(s: State, acked: State, p: Packet, end: nat, c: Choices, later: bool)
    requires LeftOpen(acked, p.ackNo, later) && SamePeer(s, acked) && AcceptableACK(s, p)
    requires s.conn.finSent ==> Tidy(acked) && (acked.terminated || acked.conn.finSent)
    requires later ==> p.ackNo > s.space.una && !s.conn.finSent && (acked.terminated || acked.loss.sack == s.loss.sack)
    requires later ==> s.loss.sack || p.flags.fin
    requires p.seqNo == s.space.receive || RepeatedFIN(s, p, end)
    requires !(p.flags.fin && s.conn.peerFIN && p.seqNo == s.space.receive)
    ensures var closed := if p.flags.fin && !acked.terminated then HandleFIN(acked, p, end) else acked;
      Tidy(if s.conn.finSent || closed.space.una != Max(s.space.una, p.ackNo) then closed
           else FollowUp(closed, RepeatedFIN(s, p, end), c, p.ackNo > s.space.una))
  {
    hide HandleFIN, FollowUp, Tidy;
    var closed := if p.flags.fin && !acked.terminated then HandleFIN(acked, p, end) else acked;
    if p.flags.fin && !acked.terminated {
      HandleFINTidy(acked, p, end, p.ackNo, later);
      HandleFINSack(acked, p, end);
    }
    OverTidy(acked);
    if !s.conn.finSent && closed.space.una == Max(s.space.una, p.ackNo) {
      FollowUpTidy(closed, RepeatedFIN(s, p, end), c, p.ackNo > s.space.una);
    }
  }

  lemma OverTidy(s: State)
    ensures s.terminated ==> Tidy(s)
  {
  }

  lemma HandleFINSack(s: State, p: Packet, end: nat)
    ensures HandleFIN(s, p, end).loss.sack == s.loss.sack
  {
  }

  lemma SynAckTidy(s: State, p: Packet, end: nat)
    requires Tidy(s) && !s.terminated && !s.conn.finSent
    ensures Tidy(HandleSynAck(s, p, end))
  {
    hide QueueSegment;
    QueueTidy(EmitACK(s));
    QueueTidy(EmitACK(OpenConnection(ObserveRTTACK(s, p.ackNo), p, end)));
  }

  lemma HandlePacketTidy(s: State, p: Packet, c: Choices)
    requires Tidy(s) && !(p.flags.fin && s.conn.peerFIN && p.seqNo == s.space.receive)
    ensures Tidy(HandlePacket(s, p, c))
  {
    hide HandleSynAck, HandleACK, HandleReset, ValidSACKOptions, Tidy;
    ResetTidy(s, p);
    if !s.terminated && SequenceEnd(p).Some? {
      if p.flags.syn && !s.conn.finSent {
        SynAckTidy(s, p, SequenceEnd(p).value);
      }
      if AcceptableACK(s, p) {
        HandleACKTidy(s, p, SequenceEnd(p).value, c);
      }
    }
  }

  lemma ResetTidy(s: State, p: Packet)
    requires Tidy(s)
    ensures Tidy(HandleReset(s, p))
  {
  }

  lemma SendNewTidy(s: State, limit: Option<nat>, pipe: nat)
    requires Tidy(s)
    ensures Tidy(SendNew(s, limit, pipe))
  {
    hide QueueSegment, NextPayloadSize;
    if !(s.terminated || s.conn.finSent || !s.hs.completed || s.stream.unsent.None?) && NextPayloadSize(s, limit, pipe) > 0 {
      SentAs(s, limit, pipe, NextPayloadSize(s, limit, pipe));
      QueueTidy(Emit(Marked(s, NextPayloadSize(s, limit, pipe)), NewPacket(s, NextPayloadSize(s, limit, pipe))));
    }
  }

  /** Any input keeps a drained stream finished; the one packet excluded is a FIN beyond the
      peer's own FIN, which no peer of this protocol sends. */
  lemma TidyStep(s: State, i: Input)
    requires Inv(s) && Tidy(s)
    requires i.Arrives? ==> !(i.packet.flags.fin && s.conn.peerFIN && i.packet.seqNo == s.space.receive)
    ensures Tidy(Step(s, i))
  {
    hide Inv, Tidy, Establish, SetSource, Close, Shutdown, SynSend, SynTimeout, SendNew;
    hide RetransmitData, RepairHole, FinSend, RetryFIN, WaitExpired, HandlePacket;
    match i
    case DoEstablish => HandshakeTidy(s);
    case DoSetSource(size) => SetSourceTidy(s, size);
    case DoClose => CloseTidy(s);
    case DoShutdown => HandshakeTidy(s);
    case SynSendFires => HandshakeTidy(s);
    case SynTimerFires => HandshakeTidy(s);
    case SendFires(limit, pipe) => SendNewTidy(s, limit, pipe);
    case DataTimerFires => RetransmitIdle(s, false); IdleTidy(s, RetransmitData(s));
    case Repair(hole) => RepairIdle(s, hole); IdleTidy(s, RepairHole(s, hole));
    case FinSendFires => ClosingIdle(s, 0); IdleTidy(s, FinSend(s));
    case FinTimerFires => ClosingIdle(s, 0); IdleTidy(s, RetryFIN(s));
    case WaitTimerFires => ClosingIdle(s, 0); IdleTidy(s, WaitExpired(s));
    case Arrives(p, c) => HandlePacketTidy(s, p, c);
  }

  lemma HandshakeTidy(s: State)
    requires Tidy(s)
    ensures Tidy(Establish(s)) && Tidy(Shutdown(s)) && Tidy(SynSend(s)) && Tidy(SynTimeout(s))
  {
  }

  lemma SetSourceTidy(s: State, size: nat)
    requires Inv(s) && Tidy(s)
    ensures Tidy(SetSource(s, size))
  {
    hide Karn, Reductions, QueueSegment;
    if !s.terminated && !s.conn.requested {
      QueueTidy(s.(stream := s.stream.(unsent := Some(size), size := size, remaining := size)));
    }
  }

  lemma CloseTidy(s: State)
    requires Tidy(s)
    ensures Tidy(Close(s))
  {
    hide QueueSegment, StartFIN;
    var asked := s.(conn := s.conn.(requested := true));
    StartFINIdle(asked);
    IdleTidy(asked, StartFIN(asked));
    QueueTidy(StartFIN(asked));
  }

  // ---------- What a chosen input achieves ----------

  /** No loss evidence, nothing to repair. */
  const BENIGN := Choices(false, false, false, false, false, None)

  /** A connection that still has payload to confirm. */
  ghost predicate Busy(s: State) {
    !s.terminated && s.hs.completed && !s.conn.finSent && s.stream.unsent.Some? && s.stream.remaining > 0
  }

  /** Data that any receiver of this stream looks at. */
  predicate IsData(p: Packet) {
    p.flags.ack && !p.flags.syn && !p.flags.fin && !p.flags.rst && ValidSACKOptions(p) && p.size > 0
  }

  /** One more packet was emitted, and what waits for confirmation is the same. */
  ghost predicate Emits(s: State, t: State) {
    && Busy(t) && t.space.pending != [] && s.out <= t.out && |t.out| == |s.out| + 1
    && t.space.una == s.space.una && t.stream.remaining == s.stream.remaining
    && t.space.receive == s.space.receive && t.conn.peerFIN == s.conn.peerFIN
  }

  /** A fresh send takes the next positions, whether or not anything is pending. */
  lemma SendEffect(s: State)
    requires Inv(s) && Busy(s) && s.space.next < s.space.windowEnd && 1 <= s.config.mss <= MAX_INT64 && Unsent(s.stream) > 0
    ensures var t := Step(s, SendFires(None, 0));
      && Emits(s, t) && Carries(t.out[|s.out|], s.space.next) && IsData(t.out[|s.out|])
      && t.space.oldestRetries == s.space.oldestRetries
  {
    hide Karn, Reductions, StartFIN;
    var size := NextPayloadSize(s, None, 0);
    assert size > 0;
    SentAs(s, None, 0, size);
  }

  lemma NothingPendingUnsent(s: State)
    requires Inv(s) && Busy(s) && s.space.pending == []
    ensures Unsent(s.stream) > 0 && s.space.una == s.space.next
  {
    NothingPending(s);
    hide Karn, Reductions;
  }

  /** The data timer repeats the oldest bytes while tries are left. */
  lemma RetryEffect(s: State)
    requires Inv(s) && Busy(s) && s.space.pending != [] && s.space.oldestRetries < MAX_RETRANSMISSIONS
    ensures var t := Step(s, DataTimerFires);
      && Emits(s, t) && Carries(t.out[|s.out|], s.space.una) && IsData(t.out[|s.out|])
      && t.space.oldestRetries == s.space.oldestRetries + 1
  {
    hide Karn, Reductions;
  }

  /** In recovery any missing bytes behind the oldest one may be repeated. */
  lemma RepairEffect(s: State)
    requires Inv(s) && Busy(s) && s.space.pending != [] && s.loss.recovering && s.space.una + 2 <= s.space.next
    ensures var t := Step(s, Repair(SACKBlock(s.space.una + 1, s.space.next))); Emits(s, t) && IsData(t.out[|s.out|])
  {
    hide Karn, Reductions;
  }

  /** An acknowledgement of new bytes: a plain one at the expected position, or a repeat of the
      FIN that was consumed before. */
  predicate Acknowledges(s: State, p: Packet) {
    && p.flags.ack && !p.flags.syn && !p.flags.rst && p.size == 0 && ValidSACKOptions(p)
    && s.space.una < p.ackNo <= s.space.next && p.seqNo < MAX_UINT64 && p.ackNo <= MAX_UINT64
    && (if p.flags.fin then !p.flags.psh && s.conn.peerFIN && p.seqNo + 1 == s.space.receive else p.seqNo == s.space.receive)
  }

  /** Alive, with the counters as given. */
  ghost predicate StandsAt(s: State, t: State, una: int, remaining: int, retries: nat) {
    && !t.terminated && t.hs.completed && t.stream.unsent == s.stream.unsent
    && t.space.una == una && t.stream.remaining == remaining && t.space.oldestRetries == retries
    && (t.space.pending != [] ==> s.space.pending != [])
  }

  lemma ACKEffect(s: State, p: Packet)
    requires Inv(s) && Busy(s) && Acknowledges(s, p)
    ensures var t := Step(s, Arrives(p, BENIGN));
      StandsAt(s, t, p.ackNo, s.stream.remaining - (p.ackNo - s.space.una), 0) && t.conn.peerFIN == s.conn.peerFIN
  {
    hide Inv, Step, ObserveECN, AcknowledgeData, FollowUp, HandleFIN;
    NothingPending(s);
    var marked := ObserveECN(s, p, BENIGN);
    ECNFrame(s, p, BENIGN);
    ReduceIdle(s, 0, false, p, BENIGN);
    BenignAcknowledged(marked, p);
    var acked := AcknowledgeData(UpdateWindow(marked, p), p, BENIGN);
    BenignRepeated(acked, p);
    var closed := if p.flags.fin then HandleFIN(acked, p, p.seqNo + 1) else acked;
    BenignFollowUp(closed, p.flags.fin, true);
    ACKHandled(s, p);
  }

  lemma ACKHandled(s: State, p: Packet)
    requires Busy(s) && Acknowledges(s, p) && s.space.pending != []
    requires var marked := ObserveECN(s, p, BENIGN); marked.space == s.space && marked.conn == s.conn && !marked.terminated
    requires var acked := AcknowledgeData(UpdateWindow(ObserveECN(s, p, BENIGN), p), p, BENIGN);
      && acked.space.una == p.ackNo && !acked.terminated
      && (p.flags.fin ==> HandleFIN(acked, p, p.seqNo + 1).space.una == p.ackNo)
    ensures var acked := AcknowledgeData(UpdateWindow(ObserveECN(s, p, BENIGN), p), p, BENIGN);
      Step(s, Arrives(p, BENIGN)) ==
        FollowUp(if p.flags.fin then HandleFIN(acked, p, p.seqNo + 1) else acked, p.flags.fin, BENIGN, true)
  {
    hide ObserveECN, AcknowledgeData, FollowUp, HandleFIN, AcknowledgeFIN;
  }

  lemma QueueStands(s: State, una: int, remaining: int, retries: nat)
    ensures StandsAt(s, s, una, remaining, retries) ==> StandsAt(s, QueueSegment(s), una, remaining, retries)
    ensures QueueSegment(s).conn.peerFIN == s.conn.peerFIN && QueueSegment(s).space.receive == s.space.receive
    ensures s.space.next <= QueueSegment(s).space.next
  {
  }

  lemma BenignAcknowledged(s: State, p: Packet)
    requires !s.terminated && s.hs.completed && s.space.una < p.ackNo <= MAX_UINT64
    ensures var t := AcknowledgeData(UpdateWindow(s, p), p, BENIGN);
      && StandsAt(s, t, p.ackNo, s.stream.remaining - (p.ackNo - s.space.una), 0)
      && t.conn.peerFIN == s.conn.peerFIN && t.space.receive == s.space.receive && s.space.next <= t.space.next
      && (p.flags.fin ==> t.conn == s.conn && t.space.next == s.space.next)
  {
    hide QueueSegment;
    var updated := UpdateWindow(s, p);
    ObserveRTTFrame(updated, p.ackNo);
    var moved := ReleaseBytes(ObserveRTTACK(updated, p.ackNo), p.ackNo);
    QueueStands(moved, p.ackNo, moved.stream.remaining, 0);
  }

  /** A FIN consumed before only draws another acknowledgement. */
  lemma BenignRepeated(s: State, p: Packet)
    requires !s.terminated && s.hs.completed
    requires p.flags.fin ==> s.conn.peerFIN && p.seqNo + 1 == s.space.receive
    ensures p.flags.fin ==>
      var t := HandleFIN(s, p, p.seqNo + 1);
      StandsAt(s, t, s.space.una, s.stream.remaining, s.space.oldestRetries) && t.conn.peerFIN
  {
  }

  lemma BenignFollowUp(s: State, repeatedFIN: bool, advanced: bool)
    requires !s.terminated && s.hs.completed
    ensures var t := FollowUp(s, repeatedFIN, BENIGN, advanced);
      StandsAt(s, t, s.space.una, s.stream.remaining, s.space.oldestRetries) && t.conn.peerFIN == s.conn.peerFIN
  {
    hide QueueSegment;
    var observed := if s.loss.sack then ObserveSACK(s, BENIGN, advanced) else s;
    QueueStands(observed, s.space.una, s.stream.remaining, s.space.oldestRetries);
  }

  /** The peer's FIN at the next expected position, whatever it acknowledges. */
  predicate EndsPeer(s: State, p: Packet) {
    && p.flags.ack && p.flags.fin && !p.flags.syn && !p.flags.rst && !p.flags.psh && p.size == 0
    && ValidSACKOptions(p) && p.seqNo == s.space.receive < MAX_UINT64 && 1 <= p.ackNo <= s.space.next && p.ackNo <= MAX_UINT64
  }

  /** Where an acknowledgement of `ack` leaves the counters. */
  ghost predicate MovedTo(s: State, t: State, ack: int) {
    if ack > s.space.una then StandsAt(s, t, ack, s.stream.remaining - (ack - s.space.una), 0)
    else StandsAt(s, t, s.space.una, s.stream.remaining, s.space.oldestRetries)
  }

  lemma FINEffect(s: State, p: Packet)
    requires Inv(s) && Busy(s) && !s.conn.peerFIN && EndsPeer(s, p)
    ensures var t := Step(s, Arrives(p, BENIGN)); MovedTo(s, t, p.ackNo) && t.conn.peerFIN
  {
    hide Inv, Step, ObserveECN, HandleDataACK, HandleFIN, FollowUp;
    NothingPending(s);
    var marked := ObserveECN(s, p, BENIGN);
    ECNFrame(s, p, BENIGN);
    ReduceIdle(s, 0, false, p, BENIGN);
    BenignFINAck(marked, p);
    var acked := HandleDataACK(marked, p, BENIGN);
    ConsumedStands(acked, p, p.seqNo + 1);
    var closed := HandleFIN(acked, p, p.seqNo + 1);
    BenignFollowUp(closed, false, p.ackNo > s.space.una);
    FINHandled(s, p);
  }

  lemma BenignFINAck(s: State, p: Packet)
    requires !s.terminated && s.hs.completed && p.flags.fin && p.ackNo <= MAX_UINT64
    requires p.ackNo > s.space.una ==> s.space.pending != []
    ensures var t := HandleDataACK(s, p, BENIGN);
      MovedTo(s, t, p.ackNo) && t.conn == s.conn && t.space.receive == s.space.receive && t.space.next == s.space.next
  {
    hide QueueSegment, DuplicateACK, FastRetransmitOldest, AcknowledgeData;
    if p.ackNo > s.space.una {
      BenignAcknowledged(s, p);
    }
  }

  lemma ConsumedStands(s: State, p: Packet, end: nat)
    requires !s.terminated && s.hs.completed && !s.conn.peerFIN
    requires p.flags.ack && p.size == 0 && p.ackNo <= s.space.next && p.seqNo == s.space.receive
    ensures var t := HandleFIN(s, p, end);
      StandsAt(s, t, s.space.una, s.stream.remaining, s.space.oldestRetries) && t.conn.peerFIN
  {
  }

  lemma FINHandled(s: State, p: Packet)
    requires Busy(s) && !s.conn.peerFIN && EndsPeer(s, p)
    requires ObserveECN(s, p, BENIGN).conn == s.conn && !HandleDataACK(ObserveECN(s, p, BENIGN), p, BENIGN).terminated
    ensures var acked := HandleDataACK(ObserveECN(s, p, BENIGN), p, BENIGN);
      var closed := HandleFIN(acked, p, p.seqNo + 1);
      var t := Step(s, Arrives(p, BENIGN));
      t == closed || t == FollowUp(closed, false, BENIGN, p.ackNo > s.space.una)
  {
    hide ObserveECN, HandleDataACK, FollowUp, HandleFIN, AcknowledgeFIN;
  }

  lemma SynAckEffect(s: State, p: Packet)
    requires Inv(s) && s.hs.started && !s.hs.completed && !s.terminated
    requires p.flags.syn && p.flags.ack && !p.flags.fin && !p.flags.rst && !p.flags.psh && p.size == 0 && p.ackNo == 1
    requires ValidSACKOptions(p) && p.seqNo < MAX_UINT64
    ensures var t := Step(s, Arrives(p, BENIGN));
      && !t.terminated && t.hs.completed && t.stream.unsent == s.stream.unsent && t.space.pending == []
      && t.space.oldestRetries == s.space.oldestRetries
  {
    hide Karn, Reductions, QueueSegment, ObserveRTTACK;
    ObserveRTTFrame(s, 1);
    var ready := EmitACK(OpenConnection(ObserveRTTACK(s, 1), p, p.seqNo + 1));
    QueueStream(ready);
  }

  lemma QueueStream(s: State)
    ensures var t := QueueSegment(s);
      && t.terminated == s.terminated && t.hs == s.hs && t.stream.unsent == s.stream.unsent
      && t.space.pending == s.space.pending && t.space.oldestRetries == s.space.oldestRetries
  {
  }

  /** The handshake is still open after this step, and a SYN was just emitted. */
  ghost predicate Asks(s: State, t: State) {
    && t.hs.started && !t.hs.synWaiting && !t.terminated && !t.hs.completed && t.stream == s.stream
    && t.space == s.space && s.out <= t.out && |t.out| == |s.out| + 1 && IsSyn(t.out[|s.out|])
  }

  lemma OpeningEffects(s: State)
    requires Inv(s) && !s.terminated && !s.hs.completed
    ensures !s.hs.started ==>
      var t := Step(s, DoEstablish);
      && t.hs.started && t.hs.synWaiting && !t.terminated && !t.hs.completed && t.stream == s.stream
      && t.out == s.out && t.space.oldestRetries == s.space.oldestRetries
    ensures s.hs.started && s.hs.synWaiting ==> Asks(s, Step(s, SynSendFires))
    ensures s.hs.started && !s.hs.synWaiting && s.hs.retries < MAX_RETRANSMISSIONS ==> Asks(s, Step(s, SynTimerFires))
  {
    hide Karn, Reductions;
  }
}
