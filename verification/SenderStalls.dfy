/** What a sender without tries can no longer do: its oldest bytes stay unsent for good, and a
    handshake it may not ask for again stays open. */
module SenderStalls {
  import opened Basics
  import opened Packets
  import opened Sender
  import opened SenderSafety
  import opened SenderSteps
  import opened SenderProgress
  import SB = SendBuffer

  // ---------- The oldest bytes ----------

  /** The tries of the oldest bytes are used up, or the connection is over. */
  ghost predicate Spent(s: State) {
    || s.terminated
    || (&& s.space.pending != [] && s.space.oldestRetries >= MAX_RETRANSMISSIONS && s.space.una < s.space.next
        && s.stream.remaining > 0 && !s.conn.finSent && s.hs.completed)
  }

  /** Nothing is confirmed, and no packet with the oldest byte was emitted. */
  ghost predicate Withholds(s: State, t: State) {
    && Spent(t) && t.space.una == s.space.una && s.out <= t.out
    && forall k :: |s.out| <= k < |t.out| && t.out[k].size > 0 ==> s.space.una < t.out[k].seqNo
  }

  lemma WithholdsTwice(s: State, t: State, u: State)
    requires Withholds(s, t) && Withholds(t, u)
    ensures Withholds(s, u)
  {
    forall k | |s.out| <= k < |u.out| && u.out[k].size > 0 ensures s.space.una < u.out[k].seqNo {
      if k < |t.out| {
        assert u.out[k] == t.out[k];
      }
    }
  }

  lemma ShutdownWithholds(s: State, outcome: CloseOutcome)
    requires Spent(s)
    ensures Withholds(s, s) && Withholds(s, Shutdown(s)) && Withholds(s, FinishConnection(s, outcome))
  {
  }

  lemma EmitWithholds(s: State, p: Packet)
    requires Spent(s) && (p.size > 0 ==> s.space.una < p.seqNo)
    ensures Withholds(s, Emit(s, p))
  {
  }

  lemma QueueWithholds(s: State)
    requires Spent(s)
    ensures Withholds(s, QueueSegment(s)) && Withholds(s, StartFIN(s))
  {
  }

  lemma RetransmitWithholds(s: State, restart: bool)
    requires Spent(s)
    ensures Withholds(s, RetransmitData(s)) && Withholds(s, FastRetransmitOldest(s, restart))
  {
  }

  lemma RepairWithholds(s: State, hole: SACKBlock)
    requires Spent(s)
    ensures Withholds(s, RepairHole(s, hole))
  {
    ShutdownWithholds(s, Aborted);
  }

  lemma SendWithholds(s: State, limit: Option<nat>, pipe: nat)
    requires Spent(s)
    ensures Withholds(s, SendNew(s, limit, pipe))
  {
    hide QueueSegment, NextPayloadSize;
    var size := NextPayloadSize(s, limit, pipe);
    if !(s.terminated || s.conn.finSent || !s.hs.completed || s.stream.unsent.None?) && size > 0 {
      SentAs(s, limit, pipe, size);
      var marked := Marked(s, size);
      assert Withholds(s, marked);
      EmitWithholds(marked, NewPacket(s, size));
      var sent := Emit(marked, NewPacket(s, size));
      WithholdsTwice(s, marked, sent);
      QueueWithholds(sent);
      WithholdsTwice(s, sent, QueueSegment(sent));
    }
  }

  lemma ReduceWithholds(s: State, ack: nat, already: bool, p: Packet, c: Choices)
    requires Spent(s)
    ensures Withholds(s, ReduceOnce(s, ack, already)) && Withholds(s, DuplicateACK(s, c).0) && Withholds(s, ObserveECN(s, p, c))
  {
  }

  lemma SACKWithholds(s: State, c: Choices, advanced: bool)
    requires Spent(s)
    ensures Withholds(s, ObserveSACK(s, c, advanced))
  {
    hide ReduceOnce, RepairHole;
    var before := if advanced then 0 else s.loss.sackDuplicates;
    var counted := s.(loss := s.loss.(sackDuplicates := before + 1, duplicates := before + 1));
    var already := s.loss.ecn && s.space.una < s.loss.reductionEnd;
    var entered := counted.(loss := counted.loss.(recovering := true, recoveryEnd := s.space.next, until := s.space.next));
    ReduceWithholds(entered, s.space.una, already, SynPacket(s), c);
    var reduced := ReduceOnce(entered, s.space.una, already);
    if c.hole.Some? {
      RepairWithholds(reduced, c.hole.value);
      WithholdsTwice(entered, reduced, RepairHole(reduced, c.hole.value));
    }
  }

  lemma RepeatedWithholds(s: State, p: Packet, c: Choices, windowUnchanged: bool)
    requires Spent(s)
    ensures Withholds(s, RepeatedACK(s, p, c, windowUnchanged))
  {
    hide DuplicateACK, FastRetransmitOldest, QueueSegment, Withholds;
    ShutdownWithholds(s, Aborted);
    var counted := DuplicateACK(s, c).0;
    ReduceWithholds(s, 0, false, p, c);
    SpentAfter(s, counted);
    RetransmitWithholds(counted, true);
    var retried := FastRetransmitOldest(counted, true);
    WithholdsTwice(s, counted, retried);
    SpentAfter(s, retried);
    QueueWithholds(s);
    QueueWithholds(counted);
    QueueWithholds(retried);
    WithholdsTwice(s, counted, QueueSegment(counted));
    WithholdsTwice(s, retried, QueueSegment(retried));
  }

  lemma SpentAfter(s: State, t: State)
    requires Withholds(s, t)
    ensures Spent(t)
  {
  }

  lemma HandleDataACKWithholds(s: State, p: Packet, c: Choices)
    requires Spent(s) && !s.terminated && p.ackNo <= s.space.una && p.ackNo <= MAX_UINT64
    ensures Withholds(s, HandleDataACK(s, p, c))
  {
    hide RepeatedACK, AcknowledgeData;
    var updated := UpdateWindow(s, p);
    RepeatedWithholds(updated, p, c, p.window == s.space.peerWindow);
  }

  lemma HandleFINWithholds(s: State, p: Packet, end: nat)
    requires Spent(s) && !s.terminated
    ensures Withholds(s, HandleFIN(s, p, end))
  {
    hide StartFIN, QueueSegment;
    var consumed := ConsumeFIN(s, end, CloseWait, true);
    var sent := EmitACK(consumed);
    EmitWithholds(consumed, Segment(ACK_FLAGS, 0, consumed.space.next, consumed.space.receive));
    QueueWithholds(sent);
    var queued := QueueSegment(sent);
    WithholdsTwice(consumed, sent, queued);
    QueueWithholds(queued);
    WithholdsTwice(consumed, queued, StartFIN(queued));
  }

  lemma FollowUpWithholds(s: State, repeatedFIN: bool, c: Choices, advanced: bool)
    requires Spent(s)
    ensures Withholds(s, FollowUp(s, repeatedFIN, c, advanced))
  {
    hide ObserveSACK, QueueSegment, Withholds;
    ShutdownWithholds(s, Aborted);
    SACKWithholds(s, c, advanced);
    var repaired := ObserveSACK(s, c, advanced);
    SpentAfter(s, repaired);
    QueueWithholds(s);
    QueueWithholds(repaired);
    WithholdsTwice(s, repaired, QueueSegment(repaired));
  }

  lemma HandleACKWithholds(s: State, p: Packet, end: nat, c: Choices)
    requires Spent(s) && !s.terminated && p.ackNo <= s.space.una && p.ackNo <= MAX_UINT64
    ensures Withholds(s, HandleACK(s, p, end, c))
  {
    hide ObserveECN, HandleDataACK, HandleFIN, FollowUp, Withholds, AcknowledgeFIN;
    ShutdownWithholds(s, Aborted);
    var marked := ObserveECN(s, p, c);
    ECNFrame(s, p, c);
    ReduceWithholds(s, 0, false, p, c);
    SpentAfter(s, marked);
    HandleDataACKWithholds(marked, p, c);
    var acked := HandleDataACK(marked, p, c);
    SpentAfter(marked, acked);
    WithholdsTwice(s, marked, acked);
    if p.flags.fin && !acked.terminated {
      HandleFINWithholds(acked, p, end);
      WithholdsTwice(s, acked, HandleFIN(acked, p, end));
    }
    var closed := if p.flags.fin && !acked.terminated then HandleFIN(acked, p, end) else acked;
    SpentAfter(s, closed);
    FollowUpWithholds(closed, RepeatedFIN(s, p, end), c, p.ackNo > s.space.una);
    WithholdsTwice(s, closed, FollowUp(closed, RepeatedFIN(s, p, end), c, p.ackNo > s.space.una));
  }

  lemma SynAckWithholds(s: State, p: Packet, end: nat)
    requires Spent(s) && !s.terminated
    ensures Withholds(s, HandleSynAck(s, p, end))
  {
    hide QueueSegment;
    EmitWithholds(s, Segment(ACK_FLAGS, 0, s.space.next, s.space.receive));
    QueueWithholds(EmitACK(s));
    WithholdsTwice(s, EmitACK(s), QueueSegment(EmitACK(s)));
  }

  lemma HandlePacketWithholds(s: State, p: Packet, c: Choices)
    requires Spent(s) && p.ackNo <= s.space.una
    ensures Withholds(s, HandlePacket(s, p, c))
  {
    hide HandleSynAck, HandleACK, ValidSACKOptions, Withholds;
    ShutdownWithholds(s, Reset);
    if !s.terminated && SequenceEnd(p).Some? {
      SynAckWithholds(s, p, SequenceEnd(p).value);
      if AcceptableACK(s, p) {
        HandleACKWithholds(s, p, SequenceEnd(p).value, c);
      }
    }
  }

  lemma StepWithholds(s: State, i: Input)
    requires Inv(s) && Spent(s) && (i.Arrives? ==> i.packet.ackNo <= s.space.una)
    ensures Withholds(s, Step(s, i))
  {
    hide SendNew, RetransmitData, RepairHole, HandlePacket, Shutdown, FinishConnection;
    ShutdownWithholds(s, Aborted);
    match i
    case SendFires(limit, pipe) => SendWithholds(s, limit, pipe);
    case DataTimerFires => RetransmitWithholds(s, false);
    case Repair(hole) => RepairWithholds(s, hole);
    case Arrives(p, c) => HandlePacketWithholds(s, p, c);
    case DoSetSource(size) => SourceWithholds(s, size);
    case DoClose => CloseWithholds(s);
    case FinTimerFires => ShutdownWithholds(s, FINRetryLimit); NoFINTimers(s);
    case WaitTimerFires => ShutdownWithholds(s, if s.conn.tcp.TimeWait? then Graceful else WaitTimeout);
    case _ => NoFINTimers(s);
  }

  lemma SourceWithholds(s: State, size: nat)
    requires Inv(s) && Spent(s)
    ensures SetSource(s, size) == s
  {
    hide Karn, Reductions;
  }

  lemma CloseWithholds(s: State)
    requires Spent(s)
    ensures Withholds(s, Close(s))
  {
  }

  lemma NoFINTimers(s: State)
    requires Inv(s) && Spent(s)
    ensures !s.timers.fin && !s.timers.finStart && !s.timers.syn && !(s.hs.synWaiting && !s.hs.completed)
    ensures s.hs.started || s.terminated
  {
    hide Karn, Reductions;
  }

  // ---------- Nothing to send at all ----------

  /** Beyond the oldest bytes, there is nothing new to send either, and nothing else to repair. */
  ghost predicate Silenced(s: State) {
    && Spent(s)
    && (!s.terminated ==>
          && (Unsent(s.stream) == 0 || s.space.windowEnd <= s.space.next)
          && (!s.loss.recovering || s.space.next < s.space.una + 2))
  }

  /** Nothing is emitted or confirmed. */
  ghost predicate Keeps(s: State, t: State) {
    Silenced(t) && t.out == s.out && t.space.una == s.space.una && (t.terminated || t.conn.peerFIN == s.conn.peerFIN)
  }

  /** No event of its own makes such a sender speak. */
  lemma LocalSilence(s: State, i: Input)
    requires Inv(s) && Silenced(s) && !i.Arrives?
    ensures Keeps(s, Step(s, i))
  {
    NoFINTimers(s);
    match i
    case DoSetSource(size) => SourceWithholds(s, size);
    case SendFires(limit, pipe) => NothingToSend(s, limit, pipe);
    case DataTimerFires => RetransmitSilence(s);
    case Repair(hole) => RepairSilence(s, hole);
    case DoClose => CloseSilence(s);
    case _ =>
      hide Inv, SendNew, RetransmitData, RepairHole, HandlePacket;
  }

  lemma NothingToSend(s: State, limit: Option<nat>, pipe: nat)
    requires Silenced(s)
    ensures SendNew(s, limit, pipe) == s
  {
  }

  lemma RetransmitSilence(s: State)
    requires Silenced(s)
    ensures Keeps(s, RetransmitData(s))
  {
  }

  lemma RepairSilence(s: State, hole: SACKBlock)
    requires Silenced(s)
    ensures Keeps(s, RepairHole(s, hole))
  {
  }

  lemma CloseSilence(s: State)
    requires Silenced(s)
    ensures Keeps(s, Close(s))
  {
  }

  /** A reset ends the connection or counts for nothing. */
  lemma ResetSilence(s: State, p: Packet, c: Choices)
    requires Silenced(s) && p.flags.rst
    ensures Keeps(s, Step(s, Arrives(p, c)))
  {
  }

  // ---------- A handshake that may not ask again ----------

  /** The SYN was sent as often as it may be. */
  ghost predicate Unheard(s: State) {
    s.hs.started && !s.hs.synWaiting && !s.hs.completed && s.hs.retries >= MAX_RETRANSMISSIONS
  }

  /** The connection is over, or it still waits, and nothing was emitted. */
  ghost predicate Waits(s: State, t: State) {
    !t.hs.completed && t.out == s.out && (t.terminated || Unheard(t))
  }

  lemma LocalWait(s: State, i: Input)
    requires Inv(s) && !s.hs.completed && (s.terminated || Unheard(s)) && !i.Arrives?
    ensures Waits(s, Step(s, i))
  {
    NothingArmed(s);
    hide Inv, RecordRetry, HandlePacket, StartFIN;
  }

  lemma NothingArmed(s: State)
    requires Inv(s) && !s.hs.completed && (s.terminated || Unheard(s))
    ensures s.space.pending == [] && !s.conn.finSent && !s.timers.fin && !s.timers.finStart && !s.loss.recovering && !s.hs.synWaiting
  {
    AccountingHolds(s);
    hide Karn;
  }

  /** Only a SYN of the peer completes the handshake. */
  lemma ArrivalWait(s: State, p: Packet, c: Choices)
    requires !s.hs.completed && (s.terminated || Unheard(s)) && !p.flags.syn
    ensures Waits(s, Step(s, Arrives(p, c)))
  {
  }

  // ---------- What it means ----------

  /** With bytes unconfirmed, or before the handshake is done, no success is recorded. */
  lemma NoSuccess(s: State)
    requires Inv(s) && (s.hs.completed ==> s.space.una - 1 < s.stream.size)
    ensures !s.stream.transfer.Succeeded?
  {
    hide Karn, Reductions;
  }

  /** Nothing but an acknowledgement confirms bytes, and no size shrinks. */
  lemma StaysShort(s: State, i: Input)
    requires Inv(s) && !i.Arrives? && (s.hs.completed ==> s.space.una - 1 < s.stream.size)
    ensures var t := Step(s, i);
      t.hs.completed == s.hs.completed && t.space.una == s.space.una && (t.hs.completed ==> t.space.una - 1 < t.stream.size)
      && t.conn.peerFIN == s.conn.peerFIN
  {
    hide Inv, Step, Emitted;
    StepCorrect(s, i);
  }
}
