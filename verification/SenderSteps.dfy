/** How one step of a sender relates its two states: what it puts on the wire, what it
    leaves alone, and what it learns from a packet. */
module SenderSteps {
  import opened Basics
  import opened Packets
  import opened Sender
  import opened SenderSafety
  import SB = SendBuffer

  /** What a packet emitted by a sender in state `t`, or in an earlier one, can look like. */
  ghost predicate Honest(t: State, p: Packet) {
    && !p.flags.rst && p.size >= 0 && p.seqNo + p.size <= t.space.next
    && if p.flags.syn then !p.flags.ack && !p.flags.fin && p.size == 0 && p.seqNo == 0 && t.hs.started
       else
         && p.flags.ack && t.hs.completed && p.seqNo >= 1
         && t.space.peerInitial + 1 <= p.ackNo <= t.space.receive
         && (p.size > 0 ==> p.seqNo + p.size <= DataEnd(t.conn, t.space))
         && (p.flags.fin ==> p.size == 0 && t.conn.finSent && p.seqNo == t.conn.finSeq)
  }

  ghost predicate Emitted(before: seq<Packet>, t: State) {
    && before <= t.out
    && forall k :: |before| <= k < |t.out| ==> Honest(t, t.out[k])
  }

  /** The step confirms nothing, sends nothing new and consumes nothing. */
  ghost predicate Steady(s: State, t: State) {
    && t.config == s.config
    && t.hs.started == s.hs.started && t.hs.completed == s.hs.completed
    && t.space.una == s.space.una && t.space.receive == s.space.receive
    && t.space.peerInitial == s.space.peerInitial && t.space.windowEnd == s.space.windowEnd
    && t.stream.size >= s.stream.size
    && DataEnd(t.conn, t.space) == DataEnd(s.conn, s.space)
    && s.space.next <= t.space.next
    && t.conn.peerFIN == s.conn.peerFIN && t.conn.finAcked == s.conn.finAcked
    && (s.conn.finSent ==> t.conn.finSent)
    && (s.terminated ==> t.terminated)
    && Emitted(s.out, t)
  }

  lemma SteadyTwice(s: State, t: State, u: State)
    requires Steady(s, t) && Steady(t, u)
    ensures Steady(s, u)
  {
    forall k | |s.out| <= k < |u.out| ensures Honest(u, u.out[k]) {
      if k < |t.out| {
        assert u.out[k] == t.out[k];
      }
    }
  }

  lemma EmitSteady(s: State, p: Packet)
    requires Honest(s, p)
    ensures Steady(s, Emit(s, p))
  {
  }

  lemma EmitACKSteady(s: State)
    requires Inv(s) && s.hs.completed
    ensures Steady(s, EmitACK(s))
  {
    hide OriginalsFresh, SamplesUnambiguous, SentBelow, ReductionsSpaced, BoundariesBelow, Unambiguous;
    EmitSteady(s, Segment(ACK_FLAGS, 0, s.space.next, s.space.receive));
  }

  lemma ShutdownSteady(s: State, outcome: CloseOutcome)
    ensures Steady(s, Shutdown(s)) && Steady(s, FinishConnection(s, outcome))
  {
  }

  lemma StartFINSteady(s: State)
    ensures Steady(s, StartFIN(s))
  {
  }

  lemma QueueSteady(s: State)
    ensures Steady(s, QueueSegment(s))
  {
  }

  /** A repeat carries what was first sent, so it is still within what this sender can say. */
  lemma PreparedSteady(s: State)
    requires Inv(s)
    ensures var (retried, packet) := PrepareDataRetry(s);
      && Steady(s, retried) && Steady(s, retried.(timers := retried.timers.(data := false)))
      && (packet.Some? ==> Honest(retried, packet.value))
  {
    hide OriginalsFresh, SamplesUnambiguous, SentBelow, ReductionsSpaced, BoundariesBelow, Unambiguous, Shutdown;
    ShutdownSteady(s, Aborted);
    if !(s.terminated || s.conn.finSent || s.space.pending == []) {
      var oldest := s.space.pending[0];
      SB.TilesOrdered(s.space.pending[1..], oldest.seqNo + oldest.size, s.space.next);
    }
  }

  /** Loss guards and timers are not on the wire. */
  lemma SameWords(s: State, t: State, u: State, p: Packet)
    requires Steady(s, t) && u == t.(loss := u.loss, timers := u.timers)
    requires Honest(t, p)
    ensures Steady(s, Emit(u, p))
  {
    assert Steady(s, u);
    EmitSteady(u, p);
    SteadyTwice(s, u, Emit(u, p));
  }

  lemma RetransmitSteady(s: State, restart: bool)
    requires Inv(s)
    ensures Steady(s, RetransmitData(s)) && Steady(s, FastRetransmitOldest(s, restart))
  {
    hide Inv, PrepareDataRetry, Emit, Honest, Steady;
    PreparedSteady(s);
    StaySteady(s);
    var (retried, packet) := PrepareDataRetry(s);
    if packet.Some? {
      SameWords(s, retried, retried, packet.value);
      SameWords(s, retried, ArmData(retried), packet.value);
      SameWords(s, retried, ArmData(TimeoutLoss(retried)), packet.value);
    }
  }

  lemma RepairSteady(s: State, hole: SACKBlock)
    requires Accounting(s.terminated, s.hs, s.conn, s.space, s.stream)
    requires s.loss.recovering ==> s.hs.completed
    ensures Steady(s, RepairHole(s, hole))
  {
    ShutdownSteady(s, Aborted);
    if !(s.terminated || s.conn.finSent || !s.loss.recovering || !Outstanding(s, hole)) {
      EmitSteady(ArmData(RecordRetry(s, hole.start, hole.end)),
                 Segment(DATA_FLAGS, hole.end - hole.start, hole.start, s.space.receive));
    }
  }

  lemma ReduceSteady(s: State, ack: nat, already: bool)
    ensures Steady(s, ReduceOnce(s, ack, already))
  {
  }

  lemma DuplicateSteady(s: State, c: Choices)
    ensures Steady(s, DuplicateACK(s, c).0)
  {
  }

  lemma ECNSteady(s: State, p: Packet, c: Choices)
    ensures Steady(s, ObserveECN(s, p, c))
  {
  }

  lemma ObserveRTTSteady(s: State, ack: nat)
    ensures Steady(s, ObserveRTTACK(s, ack))
  {
  }

  lemma EnterSteady(s: State, c: Choices)
    requires Accounting(s.terminated, s.hs, s.conn, s.space, s.stream) && s.hs.completed
    ensures Steady(s, EnterRecovery(s, c))
  {
    hide RepairHole, Accounting;
    var already := s.loss.ecn && s.space.una < s.loss.reductionEnd;
    var entered := s.(loss := s.loss.(recovering := true, recoveryEnd := s.space.next, until := s.space.next));
    ReduceSteady(entered, s.space.una, already);
    var reduced := ReduceOnce(entered, s.space.una, already);
    if c.hole.Some? {
      RepairSteady(reduced, c.hole.value);
      SteadyTwice(entered, reduced, RepairHole(reduced, c.hole.value));
    }
  }

  lemma ObserveSACKSteady(s: State, c: Choices, advanced: bool)
    requires Inv(s) && s.hs.completed
    ensures Steady(s, ObserveSACK(s, c, advanced))
  {
    hide EnterRecovery, Accounting, Karn, Reductions;
    var before := if advanced then 0 else s.loss.sackDuplicates;
    var counted := s.(loss := s.loss.(sackDuplicates := before + 1, duplicates := before + 1));
    EnterSteady(counted, c);
  }

  lemma RepeatedACKSteady(s: State, p: Packet, c: Choices, windowUnchanged: bool)
    requires Inv(s)
    ensures Steady(s, RepeatedACK(s, p, c, windowUnchanged))
  {
    hide Inv, Steady, DuplicateACK, FastRetransmitOldest, QueueSegment;
    var counted := DuplicateACK(s, c).0;
    StaySteady(s);
    QueueSteady(s);
    if !s.loss.sack {
      DuplicateKeeps(s, c);
      DuplicateSteady(s, c);
      QueueSteady(counted);
      RetransmitSteady(counted, true);
      var retried := FastRetransmitOldest(counted, true);
      QueueSteady(retried);
      SteadyTwice(s, counted, retried);
      SteadyTwice(s, retried, QueueSegment(retried));
      SteadyTwice(s, counted, QueueSegment(counted));
    }
  }

  lemma StaySteady(s: State)
    ensures Steady(s, s)
  {
  }

  lemma FollowUpSteady(s: State, repeatedFIN: bool, c: Choices, advanced: bool)
    requires Inv(s) && s.hs.completed
    ensures Steady(s, FollowUp(s, repeatedFIN, c, advanced))
  {
    hide Inv, Steady, ObserveSACK, QueueSegment;
    StaySteady(s);
    QueueSteady(s);
    ObserveSACKSteady(s, c, advanced);
    var repaired := ObserveSACK(s, c, advanced);
    QueueSteady(repaired);
    SteadyTwice(s, repaired, QueueSegment(repaired));
  }

  // ---------- What one packet can teach ----------

  /** `t` follows `s` after handling `p`: the acknowledged position, the window, the peer's
      FIN and the confirmation of ours change only as `p` says. */
  ghost predicate Learns(s: State, t: State, p: Packet) {
    && t.config == s.config && t.stream.size >= s.stream.size
    && (s.hs.started ==> t.hs.started) && (s.hs.completed ==> t.hs.completed)
    && (if s.hs.completed then Confirms(s, t, p) else t.hs.completed ==> Opens(t, p))
    && (s.conn.peerFIN ==> t.conn.peerFIN) && (s.conn.finAcked ==> t.conn.finAcked)
    && DataEnd(t.conn, t.space) == DataEnd(s.conn, s.space)
    && s.space.next <= t.space.next
    && (s.conn.finSent ==> t.conn.finSent)
    && (s.terminated ==> t.terminated)
    && Emitted(s.out, t)
  }

  ghost predicate Opens(t: State, p: Packet) {
    && p.flags.syn && p.flags.ack && p.ackNo == 1
    && t.space.una == 1 && t.space.peerInitial == p.seqNo
    && t.space.windowEnd == ReceiveWindowEnd(1, p.window)
    && !t.conn.peerFIN && !t.conn.finAcked
  }

  ghost predicate Confirms(s: State, t: State, p: Packet) {
    && t.space.peerInitial == s.space.peerInitial
    && s.space.una <= t.space.una
    && (t.space.una != s.space.una || t.space.windowEnd != s.space.windowEnd ==>
          && !p.flags.syn && p.ackNo <= MAX_UINT64
          && t.space.una == p.ackNo && t.space.windowEnd == ReceiveWindowEnd(p.ackNo, p.window))
    && s.space.receive <= t.space.receive
    && (t.conn.peerFIN == s.conn.peerFIN ==> t.space.receive == s.space.receive)
    && (t.conn.peerFIN && !s.conn.peerFIN ==> p.flags.fin && !p.flags.syn && p.seqNo == s.space.receive)
    && (t.conn.finAcked && !s.conn.finAcked ==>
          !p.flags.syn && t.conn.finSent && p.ackNo == DataEnd(t.conn, t.space) + 1)
  }

  lemma SteadyLearns(s: State, t: State, p: Packet)
    requires Steady(s, t)
    ensures Learns(s, t, p)
  {
  }

  lemma EmittedTwice(before: seq<Packet>, t: State, u: State)
    requires Emitted(before, t) && Emitted(t.out, u)
    requires forall p :: Honest(t, p) ==> Honest(u, p)
    ensures Emitted(before, u)
  {
    forall k | |before| <= k < |u.out| ensures Honest(u, u.out[k]) {
      if k < |t.out| {
        assert u.out[k] == t.out[k];
      }
    }
  }

  lemma LearnsTwice(s: State, t: State, u: State, p: Packet)
    requires s.hs.completed && Learns(s, t, p) && Learns(t, u, p)
    ensures Learns(s, u, p)
  {
    EmittedTwice(s.out, t, u);
  }

  lemma LearnsSteady(s: State, t: State, u: State, p: Packet)
    requires Learns(s, t, p) && Steady(t, u)
    ensures Learns(s, u, p)
  {
    EmittedTwice(s.out, t, u);
  }

  lemma AcknowledgeDataLearns(s: State, p: Packet, c: Choices)
    requires Inv(s) && s.hs.completed && !s.terminated && !s.conn.finSent && !p.flags.syn
    requires s.space.una <= p.ackNo <= s.space.next && p.ackNo <= MAX_UINT64
    requires s.space.windowEnd == ReceiveWindowEnd(p.ackNo, p.window)
    ensures Learns(s, AcknowledgeData(s, p, c), p) && AcknowledgeData(s, p, c).space.una == p.ackNo
    ensures AcknowledgeData(s, p, c).space.windowEnd == s.space.windowEnd
  {
    ObserveRTTKeeps(s, p.ackNo);
    ObserveRTTSteady(s, p.ackNo);
    hide Inv, ObserveRTTACK, FastRetransmitOldest, QueueSegment;
    var observed := ObserveRTTACK(s, p.ackNo);
    ObserveRTTFrame(s, p.ackNo);
    SteadyLearns(s, observed, p);
    ReleaseKeeps(observed, p.ackNo);
    var moved := ReleaseBytes(observed, p.ackNo);
    assert Learns(observed, moved, p);
    hide Learns, Steady, ReleaseBytes;
    LearnsTwice(s, observed, moved, p);
    RetransmitSteady(moved, false);
    var fast := FastRetransmitOldest(moved, false);
    LearnsSteady(s, moved, fast, p);
    QueueSteady(moved);
    QueueSteady(fast);
    LearnsSteady(s, moved, QueueSegment(moved), p);
    LearnsSteady(s, fast, QueueSegment(fast), p);
  }

  lemma HandleDataACKLearns(s: State, p: Packet, c: Choices)
    requires Inv(s) && AcceptableACK(s, p) && !s.terminated && !s.conn.finSent && !p.flags.syn
    ensures Learns(s, HandleDataACK(s, p, c), p)
  {
    hide Inv, Learns, Steady, RepeatedACK, AcknowledgeData;
    StaySteady(s);
    SteadyLearns(s, s, p);
    NothingPending(s);
    if s.space.una <= p.ackNo {
      var updated := UpdateWindow(s, p);
      UpdateWindowKeeps(s, p);
      if p.ackNo == s.space.una {
        UpdateLearns(s, p);
        RepeatedACKSteady(updated, p, c, p.window == s.space.peerWindow);
        LearnsSteady(s, updated, RepeatedACK(updated, p, c, p.window == s.space.peerWindow), p);
      } else if s.space.pending != [] {
        AcknowledgeDataLearns(updated, p, c);
        LearnsUpdated(s, p, AcknowledgeData(updated, p, c));
      }
    }
  }

  lemma UpdateLearns(s: State, p: Packet)
    requires s.hs.completed && !p.flags.syn && p.ackNo == s.space.una <= MAX_UINT64
    ensures Learns(s, UpdateWindow(s, p), p)
  {
  }

  lemma LearnsUpdated(s: State, p: Packet, t: State)
    requires s.hs.completed && !p.flags.syn && s.space.una <= p.ackNo <= MAX_UINT64 && t.space.una == p.ackNo
    requires Learns(UpdateWindow(s, p), t, p) && t.space.windowEnd == ReceiveWindowEnd(p.ackNo, p.window)
    ensures Learns(s, t, p)
  {
    hide Honest;
  }

  lemma NothingPending(s: State)
    requires Inv(s) && s.hs.completed && !s.terminated && !s.conn.finSent
    ensures s.space.pending == [] <==> s.space.una == s.space.next
    ensures s.space.una <= s.space.next
  {
    hide Karn, Reductions;
    SB.TilesOrdered(s.space.pending, s.space.una, s.space.next);
  }

  lemma AcknowledgeFINLearns(s: State, p: Packet)
    requires s.hs.completed && !p.flags.syn
    ensures Learns(s, AcknowledgeFIN(s, p.ackNo), p)
  {
  }

  lemma HandleFINLearns(s: State, p: Packet, end: nat)
    requires Inv(s) && s.hs.completed && !s.terminated && p.flags.fin && !p.flags.syn && SequenceEnd(p) == Some(end)
    ensures Learns(s, HandleFIN(s, p, end), p)
  {
    hide OriginalsFresh, SamplesUnambiguous, SentBelow, ReductionsSpaced, BoundariesBelow, Unambiguous;
    hide EmitACK, QueueSegment, StartFIN, EnterTimeWait;
    StaySteady(s);
    SteadyLearns(s, s, p);
    EmitACKSteady(s);
    SteadyLearns(s, EmitACK(s), p);
    if s.conn.tcp.TimeWait? {
      TimeWaitSteady(s);
      SteadyLearns(s, EmitACK(EnterTimeWait(s)), p);
    }
    if p.size == 0 && p.seqNo == s.space.receive && !s.conn.peerFIN {
      var tcp := if !s.conn.finSent then CloseWait else if s.conn.finAcked then TimeWait else Closing;
      assert s.conn.finSent ==> s.conn.requested;
      ConsumeKeeps(s, end, tcp, true);
      var consumed := ConsumeFIN(s, end, tcp, true);
      assert Learns(s, consumed, p);
      AfterConsumeSteady(consumed);
      LearnsSteady(s, consumed, EmitACK(consumed), p);
      if s.conn.finSent && s.conn.finAcked {
        TimeWaitSteady(consumed);
        LearnsSteady(s, consumed, EmitACK(EnterTimeWait(consumed)), p);
      }
      LearnsSteady(s, consumed, StartFIN(QueueSegment(EmitACK(consumed))), p);
    }
  }

  lemma TimeWaitSteady(s: State)
    requires Inv(s) && s.hs.completed && s.conn.tcp.TimeWait?
    ensures Steady(s, EmitACK(EnterTimeWait(s)))
  {
    hide Karn, Reductions, SB.Tiles;
    EmitSteady(EnterTimeWait(s), Segment(ACK_FLAGS, 0, s.space.next, s.space.receive));
  }

  lemma AfterConsumeSteady(consumed: State)
    requires Inv(consumed) && consumed.hs.completed
    ensures Steady(consumed, EmitACK(consumed))
    ensures Steady(consumed, StartFIN(QueueSegment(EmitACK(consumed))))
  {
    EmitACKSteady(consumed);
    hide Inv, Steady, EmitACK, QueueSegment, StartFIN;
    var sent := EmitACK(consumed);
    QueueSteady(sent);
    SteadyTwice(consumed, sent, QueueSegment(sent));
    StartFINSteady(QueueSegment(sent));
    SteadyTwice(consumed, QueueSegment(sent), StartFIN(QueueSegment(sent)));
  }

  // ---------- Whole packets ----------

  lemma HandleACKCorrect(s: State, p: Packet, end: nat, c: Choices)
    requires Inv(s) && AcceptableACK(s, p) && !s.terminated && !p.flags.syn && SequenceEnd(p) == Some(end)
    ensures Inv(HandleACK(s, p, end, c)) && Learns(s, HandleACK(s, p, end, c), p)
  {
    hide Inv, Steady, Learns, ObserveECN, HandleDataACK, AcknowledgeFIN, HandleFIN, FollowUp;
    StaySteady(s);
    SteadyLearns(s, s, p);
    ECNKeeps(s, p, c);
    ECNSteady(s, p, c);
    var marked := ObserveECN(s, p, c);
    ECNFrame(s, p, c);
    SteadyLearns(s, marked, p);
    AcknowledgeFINKeeps(marked, p.ackNo);
    AcknowledgeFINLearns(marked, p);
    if !s.conn.finSent {
      HandleDataACKKeeps(marked, p, c);
      HandleDataACKLearns(marked, p, c);
    }
    var acked := if s.conn.finSent then AcknowledgeFIN(marked, p.ackNo) else HandleDataACK(marked, p, c);
    LearnsTwice(s, marked, acked, p);
    StillCompleted(s, acked, p);
    if p.flags.fin && !acked.terminated {
      HandleFINKeeps(acked, p, end);
      HandleFINLearns(acked, p, end);
      LearnsTwice(s, acked, HandleFIN(acked, p, end), p);
    }
    var closed := if p.flags.fin && !acked.terminated then HandleFIN(acked, p, end) else acked;
    StillCompleted(s, closed, p);
    FollowUpKeeps(closed, RepeatedFIN(s, p, end), c, p.ackNo > s.space.una);
    FollowUpSteady(closed, RepeatedFIN(s, p, end), c, p.ackNo > s.space.una);
    LearnsSteady(s, closed, FollowUp(closed, RepeatedFIN(s, p, end), c, p.ackNo > s.space.una), p);
  }

  lemma StillCompleted(s: State, t: State, p: Packet)
    requires Learns(s, t, p) && s.hs.completed
    ensures t.hs.completed
  {
  }

  lemma ECNFrame(s: State, p: Packet, c: Choices)
    ensures var o := ObserveECN(s, p, c);
      o.terminated == s.terminated && o.hs == s.hs && o.conn == s.conn && o.space == s.space
  {
  }

  lemma SynAckLearns(s: State, p: Packet, end: nat)
    requires Inv(s) && p.flags.syn && !p.flags.fin && !s.terminated && !s.conn.finSent && SequenceEnd(p) == Some(end)
    ensures Learns(s, HandleSynAck(s, p, end), p)
  {
    hide OriginalsFresh, SamplesUnambiguous, SentBelow, ReductionsSpaced, BoundariesBelow, Unambiguous;
    hide EmitACK, QueueSegment;
    StaySteady(s);
    SteadyLearns(s, s, p);
    if s.hs.completed {
      EmitACKSteady(s);
      QueueSteady(EmitACK(s));
      SteadyTwice(s, EmitACK(s), QueueSegment(EmitACK(s)));
      SteadyLearns(s, QueueSegment(EmitACK(s)), p);
    } else if s.hs.started && p.flags.ack && !p.flags.psh && p.size == 0 && p.ackNo == 1 {
      ObserveRTTKeeps(s, 1);
      ObserveRTTSteady(s, 1);
      hide ObserveRTTACK;
      var observed := ObserveRTTACK(s, 1);
      OpenKeeps(observed, p, end);
      var ready := OpenConnection(observed, p, end);
      assert Learns(s, ready, p);
      EmitACKSteady(ready);
      hide Inv, Learns, Steady, OpenConnection;
      QueueSteady(EmitACK(ready));
      SteadyTwice(ready, EmitACK(ready), QueueSegment(EmitACK(ready)));
      LearnsSteady(s, ready, QueueSegment(EmitACK(ready)), p);
    }
  }

  lemma HandleResetCorrect(s: State, p: Packet)
    requires Inv(s)
    ensures Inv(HandleReset(s, p)) && Learns(s, HandleReset(s, p), p)
  {
    hide Inv, Learns, Steady, FinishConnection;
    FinishKeeps(s, Reset);
    ShutdownSteady(s, Reset);
    StaySteady(s);
    SteadyLearns(s, s, p);
    SteadyLearns(s, FinishConnection(s, Reset), p);
  }

  /** Whatever packet arrives, the sender keeps its invariant and learns only what it says. */
  lemma HandlePacketCorrect(s: State, p: Packet, c: Choices)
    requires Inv(s)
    ensures Inv(HandlePacket(s, p, c)) && Learns(s, HandlePacket(s, p, c), p)
  {
    hide Inv, Learns, Steady, HandleReset, HandleSynAck, HandleACK, ValidSACKOptions;
    StaySteady(s);
    SteadyLearns(s, s, p);
    HandleResetCorrect(s, p);
    if !s.terminated && SequenceEnd(p).Some? {
      var end := SequenceEnd(p).value;
      if p.flags.syn {
        if !p.flags.fin && !s.conn.finSent {
          SynAckKeeps(s, p, end);
          SynAckLearns(s, p, end);
        }
      } else if AcceptableACK(s, p) {
        HandleACKCorrect(s, p, end, c);
      }
    }
  }

  // ---------- Steps the packet does not cause ----------

  /** Nothing is learnt; new payload stays below the window the peer last offered. */
  ghost predicate Local(s: State, t: State) {
    && t.config == s.config && t.stream.size >= s.stream.size
    && (s.hs.started ==> t.hs.started) && t.hs.completed == s.hs.completed
    && t.space.una == s.space.una && t.space.receive == s.space.receive
    && t.space.peerInitial == s.space.peerInitial && t.space.windowEnd == s.space.windowEnd
    && DataEnd(s.conn, s.space) <= DataEnd(t.conn, t.space)
    && (s.hs.completed && DataEnd(s.conn, s.space) < DataEnd(t.conn, t.space) ==>
          DataEnd(t.conn, t.space) <= s.space.windowEnd && !s.conn.finSent)
    && s.space.next <= t.space.next
    && t.conn.peerFIN == s.conn.peerFIN && t.conn.finAcked == s.conn.finAcked
    && (s.conn.finSent ==> t.conn.finSent)
    && (s.terminated ==> t.terminated)
    && Emitted(s.out, t)
  }

  lemma SteadyLocal(s: State, t: State)
    requires Steady(s, t)
    ensures Local(s, t)
  {
  }

  lemma SynSteady(s: State)
    ensures Inv(s) ==> Steady(s, SynSend(s)) && Steady(s, SynTimeout(s))
  {
    hide OriginalsFresh, SamplesUnambiguous, SentBelow, ReductionsSpaced, BoundariesBelow, Unambiguous;
    hide Shutdown;
    ShutdownSteady(s, Aborted);
  }

  lemma ClosingTimersSteady(s: State)
    requires Inv(s)
    ensures Steady(s, FinSend(s)) && Steady(s, RetryFIN(s)) && Steady(s, WaitExpired(s))
  {
    hide OriginalsFresh, SamplesUnambiguous, SentBelow, ReductionsSpaced, BoundariesBelow, Unambiguous;
    hide FinishConnection;
    ShutdownSteady(s, FINRetryLimit);
    ShutdownSteady(s, WaitTimeout);
    ShutdownSteady(s, Graceful);
    if s.conn.finSent && !s.conn.finAcked && !s.terminated {
      var packet := Segment(FIN_FLAGS, 0, s.conn.finSeq, s.space.receive);
      assert s.hs.completed;
      EmitSteady(s, packet);
      EmitSteady(s.(conn := s.conn.(finRetries := s.conn.finRetries + 1)), packet);
    }
  }

  lemma CloseSteady(s: State)
    ensures Steady(s, Close(s))
  {
    hide Shutdown, QueueSegment, StartFIN;
    ShutdownSteady(s, Aborted);
    var asked := s.(conn := s.conn.(requested := true));
    StartFINSteady(asked);
    QueueSteady(StartFIN(asked));
    SteadyTwice(asked, StartFIN(asked), QueueSegment(StartFIN(asked)));
  }

  lemma SetSourceSteady(s: State, size: nat)
    requires Inv(s)
    ensures Steady(s, SetSource(s, size))
  {
    hide OriginalsFresh, SamplesUnambiguous, SentBelow, ReductionsSpaced, BoundariesBelow, Unambiguous;
    hide QueueSegment;
    var accepted := s.(stream := s.stream.(unsent := Some(size), size := size, remaining := size));
    QueueSteady(accepted);
  }

  lemma SendNewLocal(s: State, limit: Option<nat>, pipe: nat)
    requires Inv(s)
    ensures Local(s, SendNew(s, limit, pipe))
  {
    hide OriginalsFresh, SamplesUnambiguous, SentBelow, ReductionsSpaced, BoundariesBelow, Unambiguous;
    hide QueueSegment;
    if !(s.terminated || s.conn.finSent || !s.hs.completed || s.stream.unsent.None?) {
      var size := NextPayloadSize(s, limit, pipe);
      if size > 0 {
        var marked := Marked(s, size);
        var packet := NewPacket(s, size);
        SentAs(s, limit, pipe, size);
        EmitSteady(marked, packet);
        QueueSteady(Emit(marked, packet));
        SteadyTwice(marked, Emit(marked, packet), QueueSegment(Emit(marked, packet)));
      }
    }
  }

  // ---------- Every step of every run ----------

  lemma StepCorrect(s: State, i: Input)
    requires Inv(s)
    ensures Inv(Step(s, i))
    ensures if i.Arrives? then Learns(s, Step(s, i), i.packet) else Local(s, Step(s, i))
  {
    hide Inv, Local, Learns, Steady, Establish, SetSource, Close, Shutdown, SynSend, SynTimeout, SendNew;
    hide RetransmitData, RepairHole, FinSend, RetryFIN, WaitExpired, HandlePacket;
    match i
    case DoEstablish => { EstablishKeeps(s); EstablishLocal(s); }
    case DoSetSource(size) => {
      StaySteady(s); SteadyLocal(s, s);
      if size <= MAX_INT64 { SetSourceKeeps(s, size); SetSourceSteady(s, size); SteadyLocal(s, SetSource(s, size)); }
    }
    case DoClose => { CloseKeeps(s); CloseSteady(s); SteadyLocal(s, Close(s)); }
    case DoShutdown => { ShutdownKeeps(s); ShutdownSteady(s, Aborted); SteadyLocal(s, Shutdown(s)); }
    case SynSendFires => { SynSendKeeps(s); SynSteady(s); SteadyLocal(s, SynSend(s)); }
    case SynTimerFires => { SynTimeoutKeeps(s); SynSteady(s); SteadyLocal(s, SynTimeout(s)); }
    case SendFires(limit, pipe) => { SendNewKeeps(s, limit, pipe); SendNewLocal(s, limit, pipe); }
    case DataTimerFires => { RetransmitKeeps(s, false); RetransmitSteady(s, false); SteadyLocal(s, RetransmitData(s)); }
    case Repair(hole) => { RepairKeeps(s, hole); RepairStep(s, hole); }
    case FinSendFires => { ClosingTimersKeep(s); ClosingTimersSteady(s); SteadyLocal(s, FinSend(s)); }
    case FinTimerFires => { ClosingTimersKeep(s); ClosingTimersSteady(s); SteadyLocal(s, RetryFIN(s)); }
    case WaitTimerFires => { ClosingTimersKeep(s); ClosingTimersSteady(s); SteadyLocal(s, WaitExpired(s)); }
    case Arrives(p, c) => { HandlePacketCorrect(s, p, c); }
  }

  lemma EstablishLocal(s: State)
    requires Inv(s)
    ensures Local(s, Establish(s))
  {
    hide OriginalsFresh, SamplesUnambiguous, SentBelow, ReductionsSpaced, BoundariesBelow, Unambiguous;
  }

  lemma RepairStep(s: State, hole: SACKBlock)
    requires Inv(s)
    ensures Local(s, RepairHole(s, hole))
  {
    hide Karn, RepairHole;
    RepairSteady(s, hole);
    SteadyLocal(s, RepairHole(s, hole));
  }

  lemma InitInv(config: Config)
    ensures Inv(Init(config))
  {
  }

  lemma {:induction false} RunInv(config: Config, inputs: seq<Input>)
    ensures Inv(Run(config, inputs))
    decreases |inputs|
  {
    if inputs == [] {
      InitInv(config);
    } else {
      hide Inv, Step, Init;
      RunInv(config, inputs[..|inputs| - 1]);
      StepCorrect(Run(config, inputs[..|inputs| - 1]), inputs[|inputs| - 1]);
    }
  }

  // ---------- The main results for a sender alone ----------

  /** Pending segments tile the unconfirmed positions without a gap, and confirmed, in-flight
      and unsent bytes always add up to the stream. */
  lemma RunAccounting(config: Config, inputs: seq<Input>)
    ensures var s := Run(config, inputs);
      && s.stream.acknowledged + s.stream.remaining == s.stream.size
      && s.stream.remaining == Unsent(s.stream) + (if s.hs.completed then DataEnd(s.conn, s.space) - s.space.una else 0)
      && (s.hs.completed && !s.terminated ==> SB.Tiles(s.space.pending, s.space.una, DataEnd(s.conn, s.space)))
      && (s.stream.transfer.Succeeded? ==> s.stream.unsent.Some? && s.stream.acknowledged == s.stream.size)
      && s.space.next <= s.stream.size + 2 < MAX_UINT64
  {
    RunInv(config, inputs);
    hide Run, Karn, Reductions, ClosingAgrees;
  }

  /** Karn's rule: every RTT sample times an original transmission whose bytes were sent once,
      were confirmed by the sampling ACK, and saw no retransmission in between. */
  lemma RunObeysKarn(config: Config, inputs: seq<Input>, i: nat)
    requires i < |Run(config, inputs).log| && Run(config, inputs).log[i].Sampled?
    ensures var log := Run(config, inputs).log; var at := log[i].sentAt;
      && at < i && log[at].Sent? && !log[at].again && log[at].end <= log[i].ack
      && (forall k :: at < k < i && log[k].Sent? ==> !log[k].again)
      && (forall k :: 0 <= k < i && k != at && log[k].Sent? ==>
            log[k].end <= log[at].start || log[at].end <= log[k].start)
  {
    RunInv(config, inputs);
    hide Run, Accounting, Reductions, ClosingAgrees;
  }

  /** At most one reduction per flight: whatever was outstanding at one reduction is confirmed
      by the ACK that allows the next, and boundaries never move back. */
  lemma RunReducesOncePerFlight(config: Config, inputs: seq<Input>, i: nat, j: nat)
    requires i < j < |Run(config, inputs).log|
    requires Run(config, inputs).log[i].Reduced? && Run(config, inputs).log[j].Reduced?
    ensures Run(config, inputs).log[i].boundary <= Run(config, inputs).log[j].ack
    ensures Run(config, inputs).log[i].boundary <= Run(config, inputs).log[j].boundary
  {
    RunInv(config, inputs);
    hide Run, Accounting, Karn, ClosingAgrees;
  }

  /** The TCP state is a function of the flags, and a graceful end had both FINs. */
  lemma RunStateAgrees(config: Config, inputs: seq<Input>)
    ensures var s := Run(config, inputs);
      && ClosingAgrees(s.terminated, s.hs, s.conn)
      && (s.conn.finSent ==> Unsent(s.stream) == 0 && s.space.pending == [] && s.stream.acknowledged == s.stream.size)
      && (s.conn.outcome.Graceful? ==> s.conn.finSent && s.conn.finAcked && s.conn.peerFIN)
  {
    RunInv(config, inputs);
    hide Run, Karn, Reductions;
  }

  /** Outside SACK recovery, a send leaves the flight within the congestion window offered. */
  lemma SendWithinWindow(s: State, window: nat, pipe: nat)
    requires Inv(s) && !s.loss.recovering && s.space.next < SendNew(s, Some(window), pipe).space.next
    ensures BytesInFlight(SendNew(s, Some(window), pipe)) <= window
    ensures SendNew(s, Some(window), pipe).space.next <= s.space.windowEnd
  {
    hide Karn, Reductions;
  }

  /** A terminated sender is final: no later input of any kind makes it emit, sample, reduce,
      confirm or start again. */
  lemma {:induction false} TerminatedIsSilent(config: Config, inputs: seq<Input>, later: nat)
    requires later <= |inputs| && Run(config, inputs[..later]).terminated
    ensures Run(config, inputs) == Run(config, inputs[..later])
    ensures var s := Run(config, inputs); s.conn.tcp.Closed? && !s.conn.outcome.NoOutcome? && s.timers == NO_TIMERS
    decreases |inputs|
  {
    RunInv(config, inputs[..later]);
    if later == |inputs| {
      assert inputs[..later] == inputs;
      EndedFacts(Run(config, inputs));
    } else {
      hide Inv, Step, Init;
      var before := inputs[..|inputs| - 1];
      assert before[..later] == inputs[..later];
      TerminatedIsSilent(config, before, later);
      RunInv(config, before);
      EndedStep(Run(config, before), inputs[|inputs| - 1]);
    }
  }

  lemma EndedFacts(s: State)
    requires Inv(s) && s.terminated
    ensures s.conn.tcp.Closed? && s.timers == NO_TIMERS && !s.hs.synWaiting && s.space.pending == [] && !s.conn.outcome.NoOutcome?
  {
    hide Karn, Reductions;
  }

  lemma EndedStep(s: State, i: Input)
    requires Inv(s) && s.terminated
    ensures Step(s, i) == s
  {
    EndedFacts(s);
    hide Inv, SynPacket, RecordRetry;
  }

  // ---------- No run gets stuck ----------

  /** The step put exactly one packet on the wire, `p` up to its window field. */
  ghost predicate Adds(s: State, t: State, p: Packet) {
    t.out == s.out + [p.(window := s.config.receiveWindow)]
  }

  /** In every reachable state whatever is unanswered has an armed timer, and its firing repeats
      just that, with the timer armed again, or ends the connection at the retry limit. */
  lemma NeverStuck(config: Config, inputs: seq<Input>)
    ensures var s := Run(config, inputs); !s.terminated ==>
      && (s.hs.completed && s.space.una < DataEnd(s.conn, s.space) ==> DataTimerActs(s))
      && (s.hs.started && !s.hs.completed && !s.hs.synWaiting ==> SynTimerActs(s))
      && (s.conn.finSent && !s.conn.finAcked && !s.timers.finStart ==> FinTimerActs(s))
      && (s.conn.tcp.FinWait2? || s.conn.tcp.TimeWait? ==> s.timers.wait && Step(s, WaitTimerFires).terminated)
  {
    RunInv(config, inputs);
    hide Inv, Run, DataTimerActs, SynTimerActs, FinTimerActs;
    var s := Run(config, inputs);
    if !s.terminated {
      DataTimerWorks(s);
      OtherTimersWork(s);
    }
  }

  ghost predicate DataTimerActs(s: State) {
    var t := Step(s, DataTimerFires);
    && s.timers.data
    && if s.space.oldestRetries < MAX_RETRANSMISSIONS
       then RepeatsOldest(s, t) && t.timers.data && t.space == s.space.(oldestRetries := s.space.oldestRetries + 1)
       else t.terminated
  }

  /** The first unconfirmed bytes are on the wire again. */
  ghost predicate RepeatsOldest(s: State, t: State) {
    exists size, ack :: size > 0 && Adds(s, t, Segment(DATA_FLAGS, size, s.space.una, ack))
  }

  ghost predicate SynTimerActs(s: State) {
    var t := Step(s, SynTimerFires);
    s.timers.syn && (if s.hs.retries < MAX_RETRANSMISSIONS then Adds(s, t, SynPacket(s)) && t.timers.syn else t.terminated)
  }

  ghost predicate FinTimerActs(s: State) {
    var t := Step(s, FinTimerFires);
    && s.timers.fin
    && if s.conn.finRetries < s.config.maxFINRetries
       then Adds(s, t, Segment(FIN_FLAGS, 0, s.conn.finSeq, s.space.receive)) && t.timers.fin
       else t.terminated
  }

  lemma DataTimerWorks(s: State)
    requires Inv(s) && !s.terminated
    ensures s.hs.completed && s.space.una < DataEnd(s.conn, s.space) ==> DataTimerActs(s)
  {
    hide Karn, Reductions;
    if s.hs.completed && s.space.una < DataEnd(s.conn, s.space) {
      assert s.space.pending != [];
      var oldest := s.space.pending[0];
      assert oldest.seqNo == s.space.una && oldest.size > 0;
      if s.space.oldestRetries < MAX_RETRANSMISSIONS {
        assert Adds(s, Step(s, DataTimerFires), Segment(DATA_FLAGS, oldest.size, s.space.una, oldest.ack));
      }
    }
  }

  lemma OtherTimersWork(s: State)
    requires Inv(s) && !s.terminated
    ensures s.hs.started && !s.hs.completed && !s.hs.synWaiting ==> SynTimerActs(s)
    ensures s.conn.finSent && !s.conn.finAcked && !s.timers.finStart ==> FinTimerActs(s)
    ensures s.conn.tcp.FinWait2? || s.conn.tcp.TimeWait? ==> s.timers.wait && Step(s, WaitTimerFires).terminated
  {
    hide Karn, Reductions;
  }

  /** The data timer firing `n` times in a row while nothing arrives. */
  function Timeouts(s: State, n: nat): State
    decreases n
  {
    if n == 0 then s else Timeouts(Step(s, DataTimerFires), n - 1)
  }

  /** Silence ends a transfer: with bytes unconfirmed, the sender gives up at the timeout after
      its last retry, not before. */
  lemma {:induction false} SilenceEnds(s: State, n: nat)
    requires Inv(s) && !s.terminated && s.hs.completed && s.space.una < DataEnd(s.conn, s.space)
    ensures Timeouts(s, n).terminated <==> n > Max(0, MAX_RETRANSMISSIONS - s.space.oldestRetries)
    decreases n
  {
    hide Inv, Step, DataEnd;
    if n > 0 {
      var t := Step(s, DataTimerFires);
      DataTimerWorks(s);
      StepCorrect(s, DataTimerFires);
      TimeoutFacts(s);
      if s.space.oldestRetries < MAX_RETRANSMISSIONS {
        SilenceEnds(t, n - 1);
      } else {
        StaysEnded(t, n - 1);
      }
    }
  }

  lemma {:induction false} StaysEnded(s: State, n: nat)
    requires Inv(s) && s.terminated
    ensures Timeouts(s, n) == s
    decreases n
  {
    if n > 0 {
      assert Step(s, DataTimerFires) == s by {
        hide Karn, Reductions, Accounting;
      }
      StaysEnded(s, n - 1);
    }
  }

  lemma TimeoutFacts(s: State)
    requires Inv(s) && !s.terminated && s.hs.completed && s.space.una < DataEnd(s.conn, s.space)
    ensures var t := Step(s, DataTimerFires);
      s.space.oldestRetries < MAX_RETRANSMISSIONS ==>
        !t.terminated && t.hs.completed && t.space.una < DataEnd(t.conn, t.space)
  {
    hide Karn, Reductions;
    DataTimerWorks(s);
  }
}
