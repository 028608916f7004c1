/** What a receiver does with one packet: which acknowledgements may wait, when congestion is
    echoed, how a connection opens, and how it is ended. */
module ReceiverRules {
  import opened Basics
  import opened Packets
  import opened Receiver
  import opened ReceiverSafety
  import RB = ReceiveBuffer
  import RG = ReceiverProgress

  // ---------- Delayed acknowledgements ----------

  /** Data on an open connection, before the peer's FIN. */
  predicate IsData(s: State, p: Packet) {
    && s.phase.Open? && s.conn.established && !s.conn.peerFIN
    && p.flags.ack && !p.flags.syn && !p.flags.fin && !p.flags.rst && p.size > 0
    && ValidSACKOptions(p) && SequenceEnd(p).Some? && 1 <= p.ackNo <= s.conn.next
  }

  /** The next bytes, all of them new, with no gap behind them and no change of the window. */
  predicate InSequence(s: State, p: Packet) {
    && p.seqNo == s.buffer.next && s.buffer.ranges == []
    && p.size <= Min(s.buffer.capacity, MAX_UINT64 - s.buffer.next)
    && Min(s.buffer.capacity, MAX_UINT64 - s.buffer.next) == Max(0, Min(s.buffer.capacity, MAX_UINT64 - s.buffer.next - p.size))
  }

  /** A congestion mark that the peer has not been told of. */
  predicate NewMark(s: State, p: Packet) {
    s.feedback.ecn && p.ce && (!s.feedback.echo || p.flags.cwr)
  }

  predicate MayWait(s: State, p: Packet) {
    && InSequence(s, p) && !NewMark(s, p)
    && s.config.delayACK && s.conn.tcp == Established && !s.conn.pendingFIN
  }

  /** The acknowledgement of data waits exactly for in-sequence data without a new mark on a fully
      open connection, and only until the agreed number of segments has come; everything else, an
      old or a new gap among it, is answered with one packet at once. */
  lemma DelayRule(s: State, p: Packet, a: Admission)
    requires Inv(s) && IsData(s, p)
    ensures var t := Step(s, Arrives(p, a));
      && t.phase.Open?
      && (if MayWait(s, p) && s.feedback.waitingSegments + 1 < s.config.segmentsPerACK
          then t.out == s.out && t.feedback.waitingSegments == s.feedback.waitingSegments + 1 && t.timers.ack
          else s.out <= t.out && |t.out| == |s.out| + 1 && t.feedback.waitingSegments == 0)
      && (MayWait(s, p) ==> t.buffer.next == p.seqNo + p.size && t.buffer.ranges == [])
  {
    hide Inv, HandleData, ValidSACKOptions, InSequence, TakeData;
    DataDelay(s, p, SequenceEnd(p).value);
    if p.seqNo == s.buffer.next && s.buffer.ranges == [] && !s.conn.pendingFIN {
      InSequenceTaken(s, p, SequenceEnd(p).value);
    }
    InSequenceAt(s, p);
  }

  lemma InSequenceAt(s: State, p: Packet)
    ensures InSequence(s, p) ==> p.seqNo == s.buffer.next && s.buffer.ranges == []
  {
  }

  /** What the handling of data on its way does not touch. */
  ghost predicate Untaken(s: State, t: State) {
    && t.phase.Open? && t.config == s.config && t.out == s.out && t.buffer == s.buffer
    && t.feedback.waitingSegments == s.feedback.waitingSegments && t.timers.ack == s.timers.ack
    && t.conn.peerFIN == s.conn.peerFIN && t.conn.pendingFIN == s.conn.pendingFIN && t.conn.pendingFINSeq == s.conn.pendingFINSeq
    && (t.conn.tcp == Established <==> s.conn.tcp == Established)
  }

  lemma MarkedUntaken(s: State, p: Packet)
    requires Inv(s) && s.phase.Open? && s.conn.established && !s.conn.peerFIN
    ensures AcknowledgeFIN(s, p.ackNo).1 && Untaken(s, AcknowledgeFIN(s, p.ackNo).0) && Untaken(s, s)
    ensures Untaken(s, ObserveECN(AcknowledgeFIN(s, p.ackNo).0, p))
  {
    hide AllHonest, ReportCurrent, CountsAgree, StreamInv, Armed;
  }

  /** One packet is out, and nothing waits. */
  ghost predicate AnsweredNow(s: State, t: State) {
    t.phase.Open? && s.out <= t.out && |t.out| == |s.out| + 1 && t.feedback.waitingSegments == 0
  }

  lemma AnswerDelay(s: State, mayDelay: bool)
    requires s.phase.Open? && (s.timers.ack <==> s.feedback.waitingSegments > 0)
    ensures var t := AcknowledgeData(s, mayDelay);
      if s.config.delayACK && mayDelay && s.conn.tcp == Established && !s.conn.pendingFIN
         && s.feedback.waitingSegments + 1 < s.config.segmentsPerACK
      then t.phase.Open? && t.out == s.out && t.feedback.waitingSegments == s.feedback.waitingSegments + 1 && t.timers.ack && t.buffer == s.buffer
      else AnsweredNow(s, t) && t.buffer == s.buffer
  {
  }

  lemma ConsumeAnswers(s: State, sequence: nat)
    requires s.phase.Open?
    ensures AnsweredNow(s, ConsumeFIN(s, sequence))
  {
  }

  lemma TakeUntaken(s: State, p: Packet, end: nat)
    ensures var t := TakeData(s, p, end).0;
      t == s.(buffer := t.buffer, feedback := s.feedback.(recent := t.feedback.recent), received := t.received)
  {
  }

  /** The rule in terms of what the buffer says about the segment. */
  lemma DataDelay(s: State, p: Packet, end: nat)
    requires Inv(s) && IsData(s, p) && end == p.seqNo + p.size
    ensures var t := HandleData(s, p, end); var (taken, added) := TakeData(s, p, end);
      var mayDelay := p.seqNo == s.buffer.next && s.buffer.ranges == [] && added == p.size
                      && RB.WindowBytes(s.buffer) == RB.WindowBytes(taken.buffer) && !NewMark(s, p);
      && (if s.config.delayACK && mayDelay && s.conn.tcp == Established && !s.conn.pendingFIN
             && s.feedback.waitingSegments + 1 < s.config.segmentsPerACK
          then t.phase.Open? && t.out == s.out && t.feedback.waitingSegments == s.feedback.waitingSegments + 1 && t.timers.ack
          else AnsweredNow(s, t))
      && (!s.conn.pendingFIN ==> t.buffer == taken.buffer)
  {
    ArmedFacts(s);
    hide Inv, AcknowledgeFIN, ObserveECN, TakeData, AcknowledgeData, ConsumeFIN;
    MarkedUntaken(s, p);
    var inWindow := RB.OverlapsWindow(s.buffer, p.seqNo, end);
    var marked := if inWindow then ObserveECN(AcknowledgeFIN(s, p.ackNo).0, p) else s;
    SameTake(s, marked, p, end);
    TakeUntaken(marked, p, end);
    var taken := TakeData(marked, p, end).0;
    AnswerDelay(taken, true);
    AnswerDelay(taken, false);
    ConsumeAnswers(taken, taken.conn.pendingFINSeq);
  }

  lemma SameTake(s: State, t: State, p: Packet, end: nat)
    requires Untaken(s, t)
    ensures TakeData(t, p, end).0.buffer == TakeData(s, p, end).0.buffer && TakeData(t, p, end).1 == TakeData(s, p, end).1
  {
  }

  lemma ArmedFacts(s: State)
    requires Inv(s) && s.phase.Open?
    ensures s.timers.ack <==> s.feedback.waitingSegments > 0
  {
    hide AllHonest, ReportCurrent, CountsAgree, StreamInv;
  }

  /** In-sequence data is taken whole; data that is taken whole at the next position fits. */
  lemma InSequenceTaken(s: State, p: Packet, end: nat)
    requires Inv(s) && !s.conn.pendingFIN && p.size > 0 && end == p.seqNo + p.size
    requires p.seqNo == s.buffer.next && s.buffer.ranges == []
    ensures var (t, added) := TakeData(s, p, end);
      && (added == p.size && RB.WindowBytes(t.buffer) == RB.WindowBytes(s.buffer) <==> InSequence(s, p))
      && (InSequence(s, p) ==> t.buffer.next == end && t.buffer.ranges == [])
  {
    RG.BufferIsValid(s);
    hide Inv;
    var e := Min(end, RB.RightEdge(s.buffer));
    if s.buffer.next < e {
      assert [RB.ByteRange(s.buffer.next, e)][1..] == [];
    }
  }

  // ---------- Congestion marks ----------

  /** A mark on data inside the window is echoed until the peer answers with CWR, and again from the
      next mark on; data outside the window changes nothing. */
  lemma EchoRule(s: State, p: Packet, a: Admission)
    requires Inv(s) && IsData(s, p)
    ensures var t := Step(s, Arrives(p, a)).feedback;
      var inside := p.seqNo < s.buffer.next + Max(0, Min(s.buffer.capacity, MAX_UINT64 - s.buffer.next)) && p.seqNo + p.size > s.buffer.next;
      && t.ecn == s.feedback.ecn
      && t.echo == (if s.feedback.ecn && inside then p.ce || (s.feedback.echo && !p.flags.cwr) else s.feedback.echo)
  {
    hide Inv, AcknowledgeFIN, ObserveECN, TakeData, AcknowledgeData, ConsumeFIN, ValidSACKOptions;
    var end := SequenceEnd(p).value;
    MarkedUntaken(s, p);
    var acked := AcknowledgeFIN(s, p.ackNo).0;
    SameEcho(s, p);
    EchoAfter(acked, p);
    var marked := if RB.OverlapsWindow(s.buffer, p.seqNo, end) then ObserveECN(acked, p) else s;
    TakeUntaken(marked, p, end);
    var taken := TakeData(marked, p, end).0;
    AnswerEcho(taken, true);
    AnswerEcho(taken, false);
  }

  lemma SameEcho(s: State, p: Packet)
    ensures var t := AcknowledgeFIN(s, p.ackNo).0; t.feedback.echo == s.feedback.echo && t.feedback.ecn == s.feedback.ecn
  {
  }

  lemma EchoAfter(s: State, p: Packet)
    requires p.size > 0
    ensures var t := ObserveECN(s, p);
      && t.feedback.ecn == s.feedback.ecn
      && t.feedback.echo == (if s.feedback.ecn then p.ce || (s.feedback.echo && !p.flags.cwr) else s.feedback.echo)
  {
  }

  lemma AnswerEcho(s: State, mayDelay: bool)
    ensures var t := AcknowledgeData(s, mayDelay); t.feedback.echo == s.feedback.echo && t.feedback.ecn == s.feedback.ecn
    ensures var t := ConsumeFIN(s, s.conn.pendingFINSeq); t.feedback.echo == s.feedback.echo && t.feedback.ecn == s.feedback.ecn
  {
  }

  // ---------- Opening ----------

  predicate IsSYN(p: Packet) {
    p.flags.syn && !p.flags.fin && !p.flags.rst && !p.flags.ack && p.size == 0 && ValidSACKOptions(p) && p.seqNo < MAX_UINT64
  }

  /** The first SYN takes a slot if the host has one, agrees on what both ends offer, and is
      answered at its position; repeated before our FIN it is answered again, and any other SYN is not. */
  lemma SYNRule(s: State, p: Packet, a: Admission)
    requires Inv(s) && IsSYN(p)
    ensures var t := Step(s, Arrives(p, a));
      && (s.phase.Released? || (s.phase.Listening? && !a.canOpen) ==> t == s)
      && (s.phase.Listening? && a.canOpen ==>
            && t.phase.Open? && t.conn.tcp == SynReceived && t.conn.peerInitial == p.seqNo && t.buffer.next == p.seqNo + 1
            && t.halfOpen == s.halfOpen + 1 && t.active == s.active
            && t.feedback.sack == (s.config.sackEnabled && p.sackPermitted)
            && t.feedback.ecn == (s.config.ecnEnabled && p.flags.ece && p.flags.cwr))
      && (s.phase.Open? ==> t == s.(out := t.out))
      && (t.phase.Open? ==>
            if p.seqNo == t.conn.peerInitial && !s.conn.finSent then
              && |t.out| == |s.out| + 1 && s.out <= t.out
              && var q := t.out[|s.out|];
                 && q.flags == Flags(true, false, false, true, false, t.feedback.ecn, false)
                 && q.seqNo == 0 && q.ackNo == p.seqNo + 1 && q.size == 0 && q.sackPermitted == t.feedback.sack && q.sackBlocks == []
            else t.out == s.out)
  {
    hide AllHonest, ReportCurrent, CountsAgree, StreamInv, Armed;
  }

  /** The first acceptable ACK or data of the peer completes the handshake with the host's consent,
      and gives the slot back without it. */
  lemma EstablishRule(s: State, p: Packet, a: Admission)
    requires Inv(s) && s.phase.Open? && !s.conn.established
    requires p.flags.ack && !p.flags.syn && !p.flags.fin && !p.flags.rst && ValidSACKOptions(p) && SequenceEnd(p).Some?
    requires 1 <= p.ackNo <= s.conn.next
    ensures var t := Step(s, Arrives(p, a));
      var fits := if p.size > 0 then p.seqNo < RB.RightEdge(s.buffer) && p.seqNo + p.size > s.buffer.next else p.seqNo == s.buffer.next;
      && (!fits ==> t == s)
      && (fits && !a.canEstablish ==> t.phase.Released? && t.conn.outcome == Aborted && t.halfOpen == 0 && t.active == 0)
      && (fits && a.canEstablish && p.size == 0 ==>
            t.phase.Open? && t.conn.established && t.conn.tcp == Established && t.halfOpen == 0 && t.active == 1 && t.out == s.out)
      && (fits && a.canEstablish && p.size > 0 ==> t.conn.established && t.halfOpen == 0 && t.active == 1)
  {
    hide AllHonest, ReportCurrent, StreamInv, Armed, HandleData, ValidSACKOptions;
    if a.canEstablish {
      EstablishKeeps(s, true);
      var entered := EstablishConnection(s, true).0;
      if p.size > 0 {
        EnteredData(entered, p, SequenceEnd(p).value);
      }
    }
  }

  lemma EnteredData(s: State, p: Packet, end: nat)
    requires Inv(s) && s.phase.Open? && s.conn.established && !s.conn.finSent && !s.conn.peerFIN
    ensures var t := HandleData(s, p, end); t.conn.established && t.halfOpen == s.halfOpen && t.active == s.active
  {
    hide Inv, AcknowledgeData, TakeData, ConsumeFIN, ObserveECN;
    EchoOnly(s, p);
    var marked := if RB.OverlapsWindow(s.buffer, p.seqNo, end) then ObserveECN(s, p) else s;
    TakeUntaken(marked, p, end);
    var taken := TakeData(marked, p, end).0;
    AnswerCounts(taken, true);
    AnswerCounts(taken, false);
    ConsumeCounts(taken, taken.conn.pendingFINSeq);
  }

  lemma ConsumeCounts(s: State, sequence: nat)
    ensures var t := ConsumeFIN(s, sequence); t.conn.established == s.conn.established && t.halfOpen == s.halfOpen && t.active == s.active
  {
  }

  lemma AnswerCounts(s: State, mayDelay: bool)
    ensures var t := AcknowledgeData(s, mayDelay); t.conn == s.conn && t.halfOpen == s.halfOpen && t.active == s.active
  {
  }

  // ---------- Ending ----------

  /** A reset ends the connection exactly when it is a plain one at the next expected position, with
      an acknowledgement that is valid, and in the handshake one of our SYN. */
  lemma ResetRule(s: State, p: Packet, a: Admission)
    requires Inv(s) && p.flags.rst && ValidSACKOptions(p) && SequenceEnd(p).Some? && !p.flags.syn
    ensures var t := Step(s, Arrives(p, a));
      var counts := s.phase.Open? && p.size == 0 && !p.flags.fin && !p.flags.psh && p.seqNo == s.buffer.next
                    && (p.flags.ack ==> 1 <= p.ackNo <= s.conn.next)
                    && (s.conn.tcp == SynReceived ==> p.flags.ack && p.ackNo == s.conn.next);
      if counts then t.phase.Released? && t.conn.outcome == Reset && t.out == s.out else t == s
  {
    hide AllHonest, ReportCurrent, CountsAgree, StreamInv, Armed;
  }

  /** A pure ACK of our FIN at the expected position confirms it: the last of both FINs ends the
      connection gracefully, an earlier one moves it on; any other pure ACK confirms nothing. */
  lemma FINConfirmRule(s: State, p: Packet, a: Admission)
    requires Inv(s) && s.phase.Open? && s.conn.established && s.conn.finSent && !s.conn.finAcked
    requires p.flags.ack && !p.flags.syn && !p.flags.fin && !p.flags.rst && p.size == 0 && ValidSACKOptions(p)
    requires SequenceEnd(p).Some? && 1 <= p.ackNo <= s.conn.next
    ensures var t := Step(s, Arrives(p, a));
      if p.seqNo == s.buffer.next && p.ackNo == s.conn.next then
        && t.conn.finAcked && t.out == s.out
        && (if !s.conn.peerFIN then t.conn.tcp == FinWait2
            else if s.conn.tcp == LastAck then t.phase.Released? && t.conn.outcome == Graceful
            else t.conn.tcp == TimeWait)
      else !t.conn.finAcked && t.phase.Open?
  {
    hide AllHonest, ReportCurrent, CountsAgree, StreamInv, Armed;
  }

  /** A repeat of the consumed FIN is answered with one packet at once, with our FIN again while we
      wait for its last ACK; unless it is that ACK, which ends the connection. Another position after
      the peer's FIN changes nothing. */
  lemma RepeatedFINRule(s: State, p: Packet, a: Admission)
    requires Inv(s) && s.phase.Open? && s.conn.peerFIN && IsFIN(s, p)
    ensures var t := Step(s, Arrives(p, a));
      if p.seqNo != s.conn.peerFINSeq then t == s
      else if s.conn.tcp == LastAck && p.ackNo == s.conn.next then t.phase.Released? && t.conn.outcome == Graceful && t.out == s.out
      else
        && t.phase.Open? && t.buffer == s.buffer && |t.out| == |s.out| + 1 && s.out <= t.out
        && t.conn.finRetries == s.conn.finRetries + (if s.conn.tcp == LastAck then 1 else 0)
        && var q := t.out[|s.out|];
           && q.flags.ack && !q.flags.rst && q.ackNo == s.buffer.next && q.flags.fin == (s.conn.tcp == LastAck)
           && q.seqNo == (if s.conn.tcp == LastAck then s.conn.finSeq else s.conn.next)
  {
    FINState(s);
    hide Inv, AcknowledgeFIN, AnswerRepeatedFIN, ObserveECN;
    ConfirmedByRepeat(s, p.ackNo);
    var (acked, open) := AcknowledgeFIN(s, p.ackNo);
    if open {
      EchoOnly(acked, p);
      RepeatAnswered(ObserveECN(acked, p));
    }
  }

  lemma FINState(s: State)
    requires Inv(s) && s.phase.Open?
    ensures ClosingAgrees(s.phase, s.conn)
  {
    hide AllHonest, ReportCurrent, CountsAgree, StreamInv, Armed, ClosingAgrees;
  }

  lemma ConfirmedByRepeat(s: State, ack: nat)
    requires s.phase.Open? && ClosingAgrees(s.phase, s.conn) && s.conn.peerFIN
    ensures var (t, open) := AcknowledgeFIN(s, ack);
      && t.out == s.out && open == !(s.conn.tcp == LastAck && ack == s.conn.next)
      && (!open ==> t.phase.Released? && t.conn.outcome == Graceful)
      && (open ==> t == s.(conn := s.conn.(tcp := t.conn.tcp, finAcked := t.conn.finAcked), feedback := t.feedback, timers := t.timers)
                   && (t.conn.tcp == LastAck <==> s.conn.tcp == LastAck))
  {
  }

  lemma EchoOnly(s: State, p: Packet)
    ensures var t := ObserveECN(s, p); t == s.(feedback := t.feedback)
  {
  }

  lemma RepeatAnswered(s: State)
    requires s.phase.Open?
    ensures var t := AnswerRepeatedFIN(s);
      && t.phase.Open? && t.buffer == s.buffer && |t.out| == |s.out| + 1 && s.out <= t.out
      && t.conn.finRetries == s.conn.finRetries + (if s.conn.tcp == LastAck then 1 else 0)
      && var q := t.out[|s.out|];
         && q.flags.ack && !q.flags.rst && q.ackNo == s.buffer.next && q.flags.fin == (s.conn.tcp == LastAck)
         && q.seqNo == (if s.conn.tcp == LastAck then s.conn.finSeq else s.conn.next)
  {
  }

  predicate IsFIN(s: State, p: Packet) {
    && p.flags.fin && p.flags.ack && !p.flags.syn && !p.flags.rst && !p.flags.psh && p.size == 0 && ValidSACKOptions(p)
    && SequenceEnd(p).Some? && 1 <= p.ackNo <= s.conn.next
  }

  /** A pure ACK at the expected position that does not end the connection is not answered, moves
      nothing, and with CWR stops the echo; out of place it changes nothing. */
  lemma PureACKRule(s: State, p: Packet, a: Admission)
    requires Inv(s) && s.phase.Open? && s.conn.established && p.size == 0 && SequenceEnd(p).Some? && 1 <= p.ackNo <= s.conn.next
    requires p.flags.ack && !p.flags.syn && !p.flags.fin && !p.flags.rst && ValidSACKOptions(p)
    ensures var t := Step(s, Arrives(p, a));
      && (p.seqNo != s.buffer.next ==> t == s)
      && (t.phase.Open? ==>
            && t.out == s.out && t.buffer == s.buffer
            && (p.seqNo == s.buffer.next ==> t.feedback.echo == (s.feedback.echo && !(s.feedback.ecn && p.flags.cwr))))
  {
    hide AllHonest, ReportCurrent, CountsAgree, StreamInv, Armed;
  }

  /** Malformed packets, packets without an acknowledgement of something sent, and data after the
      peer's FIN change nothing at all. */
  lemma IgnoredRule(s: State, p: Packet, a: Admission)
    ensures var t := Step(s, Arrives(p, a));
      var malformed := OddOptions(p) || LeavesPositions(p) || (p.flags.syn && p.flags.fin)
                       || (p.flags.fin && !p.flags.rst && (p.size != 0 || p.flags.psh)) || (p.flags.syn && p.size != 0 && !p.flags.rst);
      var outside := !s.phase.Open? || !p.flags.ack || p.ackNo < 1 || p.ackNo > s.conn.next
                     || (p.size > 0 && s.conn.established && s.conn.peerFIN);
      malformed || (!p.flags.rst && !p.flags.syn && outside) ==> t == s
  {
    WellFormed(p);
    hide HandleData, FINFits, RepeatedFIN, HandleReset, EstablishConnection;
  }

  /** TIME_WAIT ends gracefully and FIN_WAIT_2 gives the peer up; at its limit the FIN timer says so. */
  lemma TimerOutcomes(s: State)
    requires Inv(s) && s.phase.Open?
    ensures s.conn.tcp == TimeWait ==> Step(s, WaitTimerFires).conn.outcome == Graceful
    ensures s.conn.tcp == FinWait2 ==> Step(s, WaitTimerFires).conn.outcome == WaitTimeout
    ensures s.conn.finSent && !s.conn.finAcked ==>
      var t := Step(s, FinTimerFires);
      if s.conn.finTimeouts >= s.config.maxFINRetries then t.conn.outcome == FINRetryLimit
      else t.conn.finTimeouts == s.conn.finTimeouts + 1 && t.conn.finRetries == s.conn.finRetries + 1
  {
    hide AllHonest, ReportCurrent, CountsAgree, StreamInv;
  }

  /** The host closes a fully open connection with a FIN at our next position, and aborts any with
      one reset from the current positions; forgetting one is silent. */
  lemma HostRule(s: State)
    requires Inv(s)
    ensures var t := Step(s, DoClose);
      if s.phase.Open? && s.conn.established && s.conn.tcp == Established then
        && t.conn.tcp == FinWait1 && t.conn.finSent && t.conn.finSeq == s.conn.next && t.conn.next == s.conn.next + 1
        && |t.out| == |s.out| + 1 && t.out[|s.out|].flags.fin && t.out[|s.out|].seqNo == s.conn.next
      else t == s
    ensures var t := Step(s, DoAbort);
      if s.phase.Open? then
        && t.phase.Released? && t.conn.outcome == Aborted && |t.out| == |s.out| + 1
        && t.out[|s.out|].flags.rst && t.out[|s.out|].seqNo == s.conn.next && t.out[|s.out|].ackNo == s.buffer.next
      else t == s
    ensures var t := Step(s, DoForget);
      if s.phase.Open? then t.phase.Released? && t.conn.outcome == Aborted && t.out == s.out else t == s
  {
    hide AllHonest, ReportCurrent, CountsAgree, StreamInv, Armed;
  }
}
