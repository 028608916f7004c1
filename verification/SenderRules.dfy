/** What a sender does with one input: which repeated ACK asks for a retransmission, what a
    timeout, an echo or a new acknowledgement changes, and how much it may send. */
module SenderRules {
  import opened Basics
  import opened Packets
  import opened Sender
  import opened SenderSafety
  import opened SenderSteps
  import opened SenderProgress
  import SB = SendBuffer

  // ---------- Acknowledgements ----------

  /** A connection in its data phase. */
  predicate Sending(s: State) {
    !s.terminated && s.hs.completed && !s.conn.finSent
  }

  /** A pure acknowledgement at the expected position, of something that was sent. */
  predicate IsACK(s: State, p: Packet) {
    && p.flags.ack && !p.flags.syn && !p.flags.fin && !p.flags.rst && p.size == 0 && ValidSACKOptions(p)
    && p.seqNo == s.space.receive && p.seqNo <= MAX_UINT64 && 1 <= p.ackNo <= s.space.next && p.ackNo <= MAX_UINT64
  }

  lemma ACKSplit(s: State, p: Packet, c: Choices)
    requires Sending(s) && IsACK(s, p)
    ensures var acked := HandleDataACK(ObserveECN(s, p, c), p, c);
      Step(s, Arrives(p, c)) ==
        if acked.space.una == Max(s.space.una, p.ackNo) then FollowUp(acked, false, c, p.ackNo > s.space.una) else acked
  {
    ECNFrame(s, p, c);
    hide ObserveECN, HandleDataACK, FollowUp, HandleFIN, AcknowledgeFIN;
  }

  // ---------- Repeated acknowledgements ----------

  /** The same acknowledgement and window as before, with bytes outstanding and no echo. */
  predicate Repeats(s: State, p: Packet) {
    && Sending(s) && IsACK(s, p) && p.ackNo == s.space.una && p.window == s.space.peerWindow
    && s.space.pending != [] && !(s.loss.ecn && p.flags.ece)
  }

  function OldestAgain(s: State): Packet
    requires s.space.pending != []
  {
    var oldest := s.space.pending[0];
    Segment(Flags(false, false, false, true, true, false, false), oldest.size, oldest.seqNo, oldest.ack).(window := s.config.receiveWindow)
  }

  /** The window is cut unless an echo has cut it for this flight already. */
  function Cuts(s: State): seq<Entry> {
    if s.loss.ecn && s.space.una < s.loss.reductionEnd then [] else [Reduced(s.space.una, s.space.next)]
  }

  /** What is the same after a repeat, whatever it asks for. */
  ghost predicate StandsStill(s: State, t: State) {
    && t.space == s.space.(windowEnd := t.space.windowEnd, oldestRetries := t.space.oldestRetries)
    && t.conn == s.conn && t.hs == s.hs && t.stream == s.stream && t.config == s.config
    && t.loss.sack == s.loss.sack && t.loss.ecn == s.loss.ecn
  }

  /** Nothing but the count of repeats changed. */
  ghost predicate OnlyCounts(s: State, t: State) {
    && StandsStill(s, t) && t.out == s.out && t.log == s.log && t.probe == s.probe && t.space.oldestRetries == s.space.oldestRetries
    && !t.terminated && t.loss == s.loss.(duplicates := s.loss.duplicates + if s.config.fastRetransmit then 1 else 0)
  }

  /** The oldest segment is repeated, the window cut and the flight guarded. */
  ghost predicate FastRetransmits(s: State, t: State)
    requires s.space.pending != []
  {
    && StandsStill(s, t) && !t.terminated && t.out == s.out + [OldestAgain(s)]
    && t.log == s.log + Cuts(s) + [Sent(s.space.una, s.space.una + s.space.pending[0].size, true)]
    && t.loss.until == s.space.next && t.loss.duplicates == 3 && t.space.oldestRetries == s.space.oldestRetries + 1
  }

  predicate Third(s: State, c: Choices) {
    s.config.fastRetransmit && s.loss.until == 0 && s.loss.duplicates == 2 && !c.suppressFast
  }

  /** Without SACK the third repeat in a row of an unguarded flight, and no other, repeats the
      oldest segment, cuts the window and guards the flight; a sender without tries gives up. */
  lemma DuplicateRule(s: State, p: Packet, c: Choices)
    requires Inv(s) && Repeats(s, p) && !s.loss.sack
    ensures var t := Step(s, Arrives(p, c));
      if !Third(s, c) then OnlyCounts(s, t)
      else if s.space.oldestRetries >= MAX_RETRANSMISSIONS then t.terminated
      else FastRetransmits(s, t)
  {
    hide Inv, Step, RepeatedACK, OnlyCounts, FastRetransmits;
    ACKSplit(s, p, c);
    RepeatRule(s, p, c);
  }

  lemma RepeatRule(s: State, p: Packet, c: Choices)
    requires Inv(s) && Repeats(s, p) && !s.loss.sack
    ensures var t := HandleDataACK(ObserveECN(s, p, c), p, c);
      && (t.space.una == s.space.una ==> FollowUp(t, false, c, false) == t)
      && t.space.una == s.space.una
      && if !Third(s, c) then OnlyCounts(s, t)
         else if s.space.oldestRetries >= MAX_RETRANSMISSIONS then t.terminated
         else FastRetransmits(s, t)
  {
    hide Inv, DuplicateACK, FastRetransmitOldest, AcknowledgeData, QueueSegment;
    NothingPending(s);
    OldestAtUna(s);
    var updated := UpdateWindow(s, p);
    var counted := DuplicateACK(updated, c).0;
    CountEffect(updated, c);
    QueueIdle(counted);
    if Third(updated, c) {
      FastEffect(counted);
      var retried := FastRetransmitOldest(counted, true);
      if retried.terminated {
        QueueOver(retried);
      } else {
        QueueIdle(retried);
      }
    }
  }

  lemma QueueOver(s: State)
    requires s.terminated
    ensures QueueSegment(s) == s && FollowUp(s, false, BENIGN, false) == s
  {
  }

  lemma CountEffect(s: State, c: Choices)
    requires Sending(s) && s.space.una < s.space.next
    ensures var (t, retry) := DuplicateACK(s, c);
      && retry == Third(s, c)
      && t == s.(loss := t.loss, log := t.log) && t.loss.sack == s.loss.sack && t.loss.ecn == s.loss.ecn
      && (!retry ==> t.log == s.log && t.loss == s.loss.(duplicates := s.loss.duplicates + if s.config.fastRetransmit then 1 else 0))
      && (retry ==> t.log == s.log + Cuts(s) && t.loss.until == s.space.next && t.loss.duplicates == 3)
  {
  }

  lemma FastEffect(s: State)
    requires Sending(s) && s.space.pending != [] && s.space.pending[0].seqNo == s.space.una
    ensures var t := FastRetransmitOldest(s, true);
      if s.space.oldestRetries >= MAX_RETRANSMISSIONS then t.terminated && t.space.una == s.space.una
      else
        && !t.terminated && t.out == s.out + [OldestAgain(s)] && t.loss == s.loss
        && t.log == s.log + [Sent(s.space.una, s.space.una + s.space.pending[0].size, true)]
        && t.space == s.space.(oldestRetries := s.space.oldestRetries + 1)
        && t.conn == s.conn && t.hs == s.hs && t.stream == s.stream && t.config == s.config
  {
  }

  lemma OldestAtUna(s: State)
    requires Inv(s) && Sending(s) && s.space.pending != []
    ensures s.space.pending[0].seqNo == s.space.una && s.space.pending[0].size > 0 && s.stream.remaining > 0
  {
    NothingPending(s);
    hide Karn, Reductions;
  }

  /** Any number of repeats in a row. */
  function AfterAll(s: State, inputs: seq<Input>): State {
    if inputs == [] then s else Step(AfterAll(s, inputs[..|inputs| - 1]), inputs[|inputs| - 1])
  }

  /** A repeat of what `s` acknowledged last, not suppressed. */
  predicate RepeatsThis(s: State, i: Input) {
    i.Arrives? && Repeats(s, i.packet) && !i.choices.suppressFast
  }

  /** Where `k` repeats in a row lead from `s`. */
  ghost predicate AfterRepeats(s: State, t: State, k: nat)
    requires s.space.pending != []
  {
    && StandsStill(s, t) && !t.terminated && t.loss.duplicates == k
    && (if k < 3 then t.out == s.out && t.log == s.log && t.loss == s.loss.(duplicates := k) && t.space.oldestRetries == s.space.oldestRetries
        else
          && t.out == s.out + [OldestAgain(s)]
          && t.log == s.log + Cuts(s) + [Sent(s.space.una, s.space.una + s.space.pending[0].size, true)]
          && t.loss.until == s.space.next)
  }

  lemma OneMore(s: State, t: State, c: Choices, u: State, k: nat)
    requires Sending(s) && s.space.pending != [] && s.config.fastRetransmit && !c.suppressFast
    requires s.loss.duplicates == 0 && s.loss.until == 0 && s.space.oldestRetries < MAX_RETRANSMISSIONS && s.space.next > 0
    requires AfterRepeats(s, t, k)
    requires if !Third(t, c) then OnlyCounts(t, u)
             else if t.space.oldestRetries >= MAX_RETRANSMISSIONS then u.terminated else FastRetransmits(t, u)
    ensures AfterRepeats(s, u, k + 1)
  {
  }

  /** However many repeats come in a row, the first two and everything after the third add nothing to
      the wire or the log; the third repeats the oldest segment and cuts the window, once. */
  lemma {:induction false} OnlyThirdRetransmits(s: State, inputs: seq<Input>)
    requires Inv(s) && Sending(s) && !s.loss.sack && s.config.fastRetransmit && s.space.pending != []
    requires s.loss.duplicates == 0 && s.loss.until == 0 && s.space.oldestRetries < MAX_RETRANSMISSIONS
    requires forall k :: 0 <= k < |inputs| ==> RepeatsThis(s, inputs[k])
    ensures Inv(AfterAll(s, inputs)) && AfterRepeats(s, AfterAll(s, inputs), |inputs|)
    decreases |inputs|
  {
    hide Inv, Step, AfterRepeats, Third, OnlyCounts, FastRetransmits, StandsStill, Repeats;
    if inputs == [] {
      NoneYet(s);
    } else {
      var n := |inputs| - 1;
      OnlyThirdRetransmits(s, inputs[..n]);
      var t := AfterAll(s, inputs[..n]);
      StillAfter(s, t, n);
      StillRepeats(s, t, inputs[n]);
      DuplicateRule(t, inputs[n].packet, inputs[n].choices);
      NothingPending(s);
      OneMore(s, t, inputs[n].choices, AfterAll(s, inputs), n);
      StepCorrect(t, inputs[n]);
    }
  }

  lemma NoneYet(s: State)
    requires Sending(s) && s.space.pending != [] && s.loss.duplicates == 0
    ensures AfterRepeats(s, s, 0)
  {
  }

  lemma StillAfter(s: State, t: State, k: nat)
    requires s.space.pending != [] && AfterRepeats(s, t, k)
    ensures StandsStill(s, t) && !t.terminated && t.loss.sack == s.loss.sack && t.space.pending == s.space.pending
  {
  }

  lemma StillRepeats(s: State, t: State, i: Input)
    requires RepeatsThis(s, i) && StandsStill(s, t) && !t.terminated
    ensures RepeatsThis(t, i)
  {
  }

  /** New information that is the third in a row or shows a loss, in no recovery, with the flight of
      the last one confirmed, and not suppressed. */
  predicate Evidence(s: State, c: Choices) {
    && !s.loss.recovering && c.newSACKInformation && !c.suppressFast
    && s.loss.recoveryEnd <= s.space.una && (s.loss.sackDuplicates >= 2 || c.boardLost)
  }

  /** With SACK agreed a repeat starts a recovery exactly on such evidence. The recovery covers
      everything outstanding, cuts the window, and repairs the hole it is given; otherwise nothing is
      emitted or logged, and new information outside a recovery is counted. */
  lemma RecoveryRule(s: State, p: Packet, c: Choices)
    requires Inv(s) && Repeats(s, p) && s.loss.sack
    ensures var t := Step(s, Arrives(p, c));
      if !Evidence(s, c) then
        && t.out == s.out && t.log == s.log && !t.terminated && t.loss.recovering == s.loss.recovering
        && t.loss.sackDuplicates == s.loss.sackDuplicates + (if !s.loss.recovering && c.newSACKInformation then 1 else 0)
      else if c.hole.None? || !(s.space.una <= c.hole.value.start < c.hole.value.end <= s.space.next) then
        && t.loss.recovering && t.loss.recoveryEnd == s.space.next == t.loss.until
        && t.out == s.out && t.log == s.log + Cuts(s) && !t.terminated
      else if c.hole.value.start == s.space.una && s.space.oldestRetries >= MAX_RETRANSMISSIONS then t.terminated
      else
        && t.loss.recovering && t.loss.recoveryEnd == s.space.next == t.loss.until
        && t.log == s.log + Cuts(s) + [Sent(c.hole.value.start, c.hole.value.end, true)] && !t.terminated
        && t.out == s.out + [Segment(Flags(false, false, false, true, true, false, false), c.hole.value.end - c.hole.value.start,
                                     c.hole.value.start, s.space.receive).(window := s.config.receiveWindow)]
  {
    hide Inv, Step, ObserveSACK;
    ACKSplit(s, p, c);
    OldestAtUna(s);
    QuietACK(s, p, c);
    var quiet := UpdateWindow(s, p);
    SACKRule(quiet, c);
    QueueIdle(ObserveSACK(quiet, c, false));
  }

  lemma QuietACK(s: State, p: Packet, c: Choices)
    requires Repeats(s, p) && s.loss.sack
    ensures HandleDataACK(ObserveECN(s, p, c), p, c) == UpdateWindow(s, p)
  {
  }

  lemma QueueIdle(s: State)
    requires s.stream.remaining > 0
    ensures QueueSegment(s) == s
  {
  }

  lemma SACKRule(s: State, c: Choices)
    requires Sending(s) && s.space.pending != [] && s.stream.remaining > 0
    ensures var t := ObserveSACK(s, c, false);
      && t.stream.remaining > 0
      && if !Evidence(s, c) then
        && t.out == s.out && t.log == s.log && !t.terminated && t.loss.recovering == s.loss.recovering
        && t.loss.sackDuplicates == s.loss.sackDuplicates + (if !s.loss.recovering && c.newSACKInformation then 1 else 0)
      else if c.hole.None? || !(s.space.una <= c.hole.value.start < c.hole.value.end <= s.space.next) then
        && t.loss.recovering && t.loss.recoveryEnd == s.space.next == t.loss.until
        && t.out == s.out && t.log == s.log + Cuts(s) && !t.terminated
      else if c.hole.value.start == s.space.una && s.space.oldestRetries >= MAX_RETRANSMISSIONS then t.terminated
      else
        && t.loss.recovering && t.loss.recoveryEnd == s.space.next == t.loss.until
        && t.log == s.log + Cuts(s) + [Sent(c.hole.value.start, c.hole.value.end, true)] && !t.terminated
        && t.out == s.out + [Segment(Flags(false, false, false, true, true, false, false), c.hole.value.end - c.hole.value.start,
                                     c.hole.value.start, s.space.receive).(window := s.config.receiveWindow)]
  {
    hide EnterRecovery;
    var counted := s.(loss := s.loss.(sackDuplicates := s.loss.sackDuplicates + 1, duplicates := s.loss.sackDuplicates + 1));
    EnterEffect(counted, c);
  }

  lemma EnterEffect(s: State, c: Choices)
    requires Sending(s) && s.space.pending != [] && s.stream.remaining > 0
    ensures var t := EnterRecovery(s, c);
      && t.stream.remaining > 0
      && if c.hole.None? || !(s.space.una <= c.hole.value.start < c.hole.value.end <= s.space.next) then
        && t.loss.recovering && t.loss.recoveryEnd == s.space.next == t.loss.until
        && t.out == s.out && t.log == s.log + Cuts(s) && !t.terminated
      else if c.hole.value.start == s.space.una && s.space.oldestRetries >= MAX_RETRANSMISSIONS then t.terminated
      else
        && t.loss.recovering && t.loss.recoveryEnd == s.space.next == t.loss.until
        && t.log == s.log + Cuts(s) + [Sent(c.hole.value.start, c.hole.value.end, true)] && !t.terminated
        && t.out == s.out + [Segment(Flags(false, false, false, true, true, false, false), c.hole.value.end - c.hole.value.start,
                                     c.hole.value.start, s.space.receive).(window := s.config.receiveWindow)]
  {
  }

  // ---------- Echoes, windows and new acknowledgements ----------

  /** An echo of what is outstanding, or of the smallest window, beyond the last answered flight. */
  predicate EchoCuts(s: State, p: Packet, c: Choices) {
    && s.loss.ecn && p.flags.ece && s.space.una <= p.ackNo
    && (s.space.pending != [] || (c.minimumWindow && s.stream.unsent.Some? && s.stream.unsent.value > 0))
    && (s.loss.reductionEnd == 0 || s.loss.reductionEnd < p.ackNo)
  }

  function EchoEntries(s: State, p: Packet, c: Choices): seq<Entry> {
    if EchoCuts(s, p, c) then [Reduced(p.ackNo, s.space.next)] else []
  }

  lemma EchoEffect(s: State, p: Packet, c: Choices)
    ensures var t := ObserveECN(s, p, c);
      && t == s.(loss := t.loss, log := s.log + EchoEntries(s, p, c))
      && t.loss == (if EchoCuts(s, p, c) then s.loss.(reductionEnd := s.space.next, cwrPending := true) else s.loss)
  {
  }

  /** How far the peer now lets us send. */
  function Edge(p: Packet): int {
    Min(p.ackNo + p.window, MAX_UINT64)
  }

  /** An acknowledgement of nothing new offers its window, and is answered by a cut if it echoes a
      mark of this flight; an older one is ignored. */
  lemma WindowRule(s: State, p: Packet, c: Choices)
    requires Inv(s) && Sending(s) && IsACK(s, p) && p.ackNo <= s.space.una && !c.newSACKInformation
    requires p.window != s.space.peerWindow || s.space.pending == []
    ensures var t := Step(s, Arrives(p, c));
      && t.out == s.out && t.log == s.log + EchoEntries(s, p, c) && !t.terminated && t.space.una == s.space.una
      && (if p.ackNo == s.space.una then t.space.windowEnd == Edge(p) && t.space.peerWindow == p.window
          else t.space.windowEnd == s.space.windowEnd && t.space.peerWindow == s.space.peerWindow)
  {
    hide Inv, Step, ObserveECN, ObserveSACK, QueueSegment;
    ACKSplit(s, p, c);
    EchoEffect(s, p, c);
    var marked := ObserveECN(s, p, c);
    var quiet := if p.ackNo == s.space.una then UpdateWindow(marked, p) else marked;
    QueueSilent(quiet);
    QueueSilent(QueueSegment(quiet));
    NoNewSACK(quiet, c, false);
    NoNewSACK(QueueSegment(quiet), c, false);
    QueueSilent(ObserveSACK(quiet, c, false));
    QueueSilent(ObserveSACK(QueueSegment(quiet), c, false));
  }

  /** Finishing a drained stream is not seen on the wire yet. */
  lemma QueueSilent(s: State)
    ensures var t := QueueSegment(s);
      && t.out == s.out && t.log == s.log && t.terminated == s.terminated && t.probe == s.probe
      && t.space.una == s.space.una && t.space.windowEnd == s.space.windowEnd && t.space.peerWindow == s.space.peerWindow
      && (t.conn.finSent == s.conn.finSent ==> t.space == s.space && t.loss == s.loss)
      && (s.stream.remaining != 0 || s.stream.completed || s.conn.finSent ==> t == s)
  {
  }

  lemma NoNewSACK(s: State, c: Choices, advanced: bool)
    requires !c.newSACKInformation
    ensures var t := ObserveSACK(s, c, advanced); t == s.(loss := s.loss.(sackDuplicates := t.loss.sackDuplicates))
  {
  }

  /** Samples come from the running probe alone. */
  function SampleEntries(s: State, ack: nat): seq<Entry> {
    if !s.probe.recovering && s.probe.active && s.probe.endSeq <= ack then [Sampled(s.probe.sentAt, ack)] else []
  }

  /** New bytes confirmed, without a partial repair: the positions, the counters, the window and the
      guards follow the packet, a running probe that it covers gives one sample, and an echo cuts
      once. A guard or recovery ends with the flight it covers. */
  lemma AdvanceRule(s: State, p: Packet, c: Choices)
    requires Inv(s) && Sending(s) && IsACK(s, p) && s.space.una < p.ackNo && !c.newSACKInformation && !c.retransmitOldest
    ensures var t := Step(s, Arrives(p, c));
      && t.out == s.out && t.log == s.log + EchoEntries(s, p, c) + SampleEntries(s, p.ackNo) && !t.terminated
      && t.space.una == p.ackNo && t.space.windowEnd == Edge(p) && t.space.peerWindow == p.window && t.space.oldestRetries == 0
      && t.stream.acknowledged == s.stream.acknowledged + (p.ackNo - s.space.una)
      && t.stream.remaining == s.stream.remaining - (p.ackNo - s.space.una)
      && t.probe.recovering == (s.probe.recovering && p.ackNo < s.probe.recoveryUntil)
      && t.loss.recovering == (s.loss.recovering && p.ackNo < s.loss.recoveryEnd)
      && t.loss.duplicates == 0 && (EchoCuts(s, p, c) ==> t.loss.reductionEnd == s.space.next && t.loss.cwrPending)
      && (t.stream.remaining > 0 ==> t.loss.until == (if p.ackNo >= s.loss.until then 0 else s.loss.until) && !t.conn.finSent)
      && (t.stream.remaining == 0 ==> t.stream.transfer.Succeeded? && t.conn.finSent && t.conn.finSeq == s.space.next)
  {
    hide Inv, Step, ObserveECN, ObserveSACK, QueueSegment, AcknowledgeData;
    NothingPending(s);
    ACKSplit(s, p, c);
    EchoEffect(s, p, c);
    var marked := ObserveECN(s, p, c);
    StreamFacts(s);
    AcknowledgedEffect(UpdateWindow(marked, p), p, c);
    var acked := AcknowledgeData(UpdateWindow(marked, p), p, c);
    NoNewSACK(acked, c, true);
    QueueCounters(acked);
    QueueCounters(ObserveSACK(acked, c, true));
    QueueSilent(ObserveSACK(acked, c, true));
    TidyStep(s, Arrives(p, c));
    StepCorrect(s, Arrives(p, c));
    SuccessMeans(s, Step(s, Arrives(p, c)), p);
  }

  /** Everything confirmed: the transfer succeeded, and the FIN has the position after it. */
  lemma SuccessMeans(s: State, t: State, p: Packet)
    requires Sending(s) && Inv(t) && Tidy(t) && Learns(s, t, p) && !t.terminated && t.hs.completed && t.stream.unsent.Some?
    ensures t.stream.remaining == 0 ==> t.stream.transfer.Succeeded? && t.conn.finSent && t.conn.finSeq == s.space.next
  {
    hide Karn, Reductions, Emitted;
  }

  lemma StreamFacts(s: State)
    requires Inv(s) && Sending(s) && s.space.una < s.space.next
    ensures s.stream.unsent.Some? && s.stream.remaining > 0 && !s.stream.completed
    ensures s.space.next - s.space.una == s.stream.remaining - Unsent(s.stream)
    ensures Tidy(s)
  {
    hide Karn, Reductions;
  }

  lemma QueueCounters(s: State)
    ensures var t := QueueSegment(s);
      && t.stream.remaining == s.stream.remaining && t.stream.acknowledged == s.stream.acknowledged
      && t.space.oldestRetries == s.space.oldestRetries && t.loss.recovering == s.loss.recovering
      && (s.loss.duplicates == 0 ==> t.loss.duplicates == 0)
      && t.loss.reductionEnd == s.loss.reductionEnd && t.loss.cwrPending == s.loss.cwrPending
      && t.hs == s.hs && t.stream.unsent == s.stream.unsent && (s.stream.remaining > 0 ==> t == s)
  {
  }

  lemma AcknowledgedEffect(s: State, p: Packet, c: Choices)
    requires Sending(s) && s.space.una < p.ackNo <= s.space.next && !c.retransmitOldest
    requires !p.flags.fin && s.stream.unsent.Some? && !s.stream.completed
    ensures var t := AcknowledgeData(s, p, c);
      && t.out == s.out && t.log == s.log + SampleEntries(s, p.ackNo) && !t.terminated
      && t.hs == s.hs && t.stream.unsent == s.stream.unsent
      && t.space.una == p.ackNo && t.space.windowEnd == s.space.windowEnd && t.space.peerWindow == s.space.peerWindow
      && t.space.oldestRetries == 0
      && t.stream.acknowledged == s.stream.acknowledged + (p.ackNo - s.space.una)
      && t.stream.remaining == s.stream.remaining - (p.ackNo - s.space.una)
      && t.probe.recovering == (s.probe.recovering && p.ackNo < s.probe.recoveryUntil)
      && t.loss.recovering == (s.loss.recovering && p.ackNo < s.loss.recoveryEnd)
      && t.loss.duplicates == 0 && t.loss.reductionEnd == s.loss.reductionEnd && t.loss.cwrPending == s.loss.cwrPending
      && (t.stream.remaining > 0 ==> t.loss.until == (if p.ackNo >= s.loss.until then 0 else s.loss.until) && !t.conn.finSent)
  {
    hide QueueSegment;
    ObserveRTTFrame(s, p.ackNo);
    var moved := ReleaseBytes(ObserveRTTACK(s, p.ackNo), p.ackNo);
    QueueSilent(moved);
    QueueCounters(moved);
  }

  /** When the policy asks for it, an acknowledgement of part of the flight repeats what is oldest
      now; the tries begin anew with it. */
  lemma PartialRule(s: State, p: Packet, c: Choices)
    requires Inv(s) && Sending(s) && IsACK(s, p) && s.space.una < p.ackNo < s.space.next && !c.newSACKInformation && c.retransmitOldest
    ensures var t := Step(s, Arrives(p, c));
      && !t.terminated && t.space.una == p.ackNo && t.space.oldestRetries == 1 && t.space.pending != []
      && t.space.pending[0].seqNo == p.ackNo && t.out == s.out + [OldestAgain(t)]
      && t.log == s.log + EchoEntries(s, p, c) + SampleEntries(s, p.ackNo) + [Sent(p.ackNo, p.ackNo + t.space.pending[0].size, true)]
  {
    hide Inv, Step, ObserveECN, ObserveSACK, AcknowledgeData, QueueSegment;
    NothingPending(s);
    ACKSplit(s, p, c);
    EchoEffect(s, p, c);
    ECNKeeps(s, p, c);
    var marked := ObserveECN(s, p, c);
    StreamFacts(s);
    UpdateWindowKeeps(marked, p);
    StillLeft(UpdateWindow(marked, p), p);
    PartialEffect(UpdateWindow(marked, p), p, c);
    var acked := AcknowledgeData(UpdateWindow(marked, p), p, c);
    NoNewSACK(acked, c, true);
    QueueCounters(acked);
    QueueCounters(ObserveSACK(acked, c, true));
  }

  /** A part of the flight leaves a gap-free rest. */
  lemma StillLeft(s: State, p: Packet)
    requires Inv(s) && Sending(s) && s.space.una < p.ackNo < s.space.next
    ensures var rest := SB.Acknowledged(s.space.pending, p.ackNo); rest != [] && rest[0].seqNo == p.ackNo && rest[0].size > 0
    ensures s.stream.remaining > p.ackNo - s.space.una
  {
    SB.AcknowledgedTiles(s.space.pending, s.space.una, s.space.next, p.ackNo);
    hide Karn, Reductions;
  }

  lemma PartialEffect(s: State, p: Packet, c: Choices)
    requires Sending(s) && s.space.una < p.ackNo && c.retransmitOldest && s.stream.remaining > p.ackNo - s.space.una
    requires var rest := SB.Acknowledged(s.space.pending, p.ackNo); rest != [] && rest[0].seqNo == p.ackNo
    ensures var t := AcknowledgeData(s, p, c);
      && Sending(t) && t.space.una == p.ackNo && t.space.oldestRetries == 1 && t.space.pending == SB.Acknowledged(s.space.pending, p.ackNo)
      && t.out == s.out + [OldestAgain(t)] && t.stream.remaining > 0
      && t.log == s.log + SampleEntries(s, p.ackNo) + [Sent(p.ackNo, p.ackNo + t.space.pending[0].size, true)]
  {
    hide SB.Acknowledged;
    ObserveRTTFrame(s, p.ackNo);
    var moved := ReleaseBytes(ObserveRTTACK(s, p.ackNo), p.ackNo);
    QueueCounters(FastRetransmitOldest(moved, false));
  }

  // ---------- Sending ----------

  /** The payload one send may take: one segment, what the source has, what the peer's window and
      the congestion window admit; in recovery only a full segment or nothing. */
  function Allowance(s: State, limit: Option<nat>, pipe: nat): int {
    var flight := if s.loss.recovering then pipe else s.space.next - s.space.una;
    var room := if limit.None? then MAX_INT64 else Max(0, limit.value - flight);
    var unsent := if s.stream.unsent.Some? then s.stream.unsent.value else 0;
    if s.space.windowEnd <= s.space.next || (s.loss.recovering && room < s.config.mss) then 0
    else Min(Min(unsent, s.config.mss), Min(s.space.windowEnd - s.space.next, room))
  }

  /** A send takes exactly what it may as one packet with the current acknowledgement, which carries
      CWR once after a cut; it is timed unless a probe runs or a recovery forbids it. */
  lemma SendRule(s: State, limit: Option<nat>, pipe: nat)
    requires Inv(s)
    ensures var t := Step(s, SendFires(limit, pipe)); var size := Allowance(s, limit, pipe);
      if !Sending(s) || s.stream.unsent.None? || size == 0 then t == s
      else
        && size > 0 && t.space.next == s.space.next + size && t.stream.unsent == Some(s.stream.unsent.value - size)
        && t.space.pending == s.space.pending + [SB.Segment(s.space.next, size, s.space.receive)]
        && t.out == s.out + [Segment(Flags(false, false, false, true, true, false, s.loss.ecn && s.loss.cwrPending),
                                     size, s.space.next, s.space.receive).(window := s.config.receiveWindow)]
        && t.log == s.log + [Sent(s.space.next, s.space.next + size, false)]
        && t.loss.cwrPending == (s.loss.cwrPending && !s.loss.ecn)
        && t.probe == (if s.probe.active || s.probe.recovering then s.probe
                       else s.probe.(active := true, sentAt := |s.log|, endSeq := s.space.next + size))
        && t.space.una == s.space.una && t.stream.remaining == s.stream.remaining && t.timers.data && !t.conn.finSent
  {
    hide Inv, QueueSegment, NextPayloadSize, Allowance;
    AllowanceIsTaken(s, limit, pipe);
    var size := NextPayloadSize(s, limit, pipe);
    if Sending(s) && s.stream.unsent.Some? && size > 0 {
      SentAs(s, limit, pipe, size);
      QueueIdle(Emit(Marked(s, size), NewPacket(s, size)));
    }
  }

  lemma AllowanceIsTaken(s: State, limit: Option<nat>, pipe: nat)
    requires Inv(s)
    ensures var size := NextPayloadSize(s, limit, pipe);
      Sending(s) && s.stream.unsent.Some? ==>
        && size == Allowance(s, limit, pipe)
        && (size > 0 ==> s.stream.remaining > 0 && size <= s.stream.unsent.value)
  {
    hide Karn, Reductions;
  }

  /** A timeout gives up after 30 tries; before, it repeats the oldest segment, forgets the count of repeats, ends a
      recovery, guards everything outstanding, withdraws the probe, and with ECN agreed makes CWR due. */
  lemma TimeoutRule(s: State)
    requires Inv(s) && Sending(s) && s.space.pending != []
    ensures var t := Step(s, DataTimerFires);
      if s.space.oldestRetries >= 30 then t.terminated && t.conn.outcome == Aborted && t.out == s.out else
      && t.out == s.out + [OldestAgain(s)]
      && t.log == s.log + [Sent(s.space.una, s.space.una + s.space.pending[0].size, true)]
      && t.space == s.space.(oldestRetries := s.space.oldestRetries + 1)
      && t.loss.duplicates == 0 && t.loss.until == s.space.next
      && (s.loss.sack ==> !t.loss.recovering && t.loss.sackDuplicates == 0 && t.loss.recoveryEnd == s.space.next)
      && (s.loss.ecn ==> t.loss.reductionEnd == s.space.next && t.loss.cwrPending)
      && !t.probe.active && t.probe.recovering && t.probe.recoveryUntil == s.space.next
      && t.timers == s.timers && t.conn == s.conn && t.stream == s.stream
  {
    OldestAtUna(s);
    hide Karn, Reductions;
  }

  /** Repairing a hole repeats exactly its bytes in recovery, and counts as a try only for the oldest. */
  lemma RepairRule(s: State, hole: SACKBlock)
    requires Inv(s) && Sending(s)
    ensures var t := Step(s, Repair(hole));
      if !s.loss.recovering || !(s.space.una <= hole.start < hole.end <= s.space.next) then t == s
      else if hole.start == s.space.una && s.space.oldestRetries >= MAX_RETRANSMISSIONS then t.terminated
      else
        && t.out == s.out + [Segment(Flags(false, false, false, true, true, false, false), hole.end - hole.start, hole.start, s.space.receive)
                             .(window := s.config.receiveWindow)]
        && t.log == s.log + [Sent(hole.start, hole.end, true)] && t.timers.data
        && t.space == s.space.(oldestRetries := s.space.oldestRetries + if hole.start == s.space.una then 1 else 0)
        && !t.probe.active && t.probe.recovering && t.probe.recoveryUntil == s.space.next
  {
    hide Karn, Reductions;
  }

  // ---------- Opening ----------

  /** Connecting asks once; the SYN offers what is configured, and only its first sending is timed. */
  lemma OpeningRule(s: State)
    requires Inv(s) && !s.terminated && !s.hs.completed
    ensures !s.hs.started ==> var t := Step(s, DoEstablish); t.hs.synWaiting && t.conn.tcp == SynSent && t.space.next == 1 && t.out == s.out
    ensures s.hs.synWaiting ==>
      var t := Step(s, SynSendFires);
      && t.out == s.out + [TheSyn(s)] && t.log == s.log + [Sent(0, 1, false)] && t.timers.syn && !t.hs.synWaiting
      && (!s.probe.active && !s.probe.recovering ==> t.probe.active && t.probe.sentAt == |s.log| && t.probe.endSeq == 1)
    ensures s.hs.started && !s.hs.synWaiting ==>
      var t := Step(s, SynTimerFires);
      if s.hs.retries >= 30 then t.terminated && t.conn.outcome == Aborted
      else
        && t.out == s.out + [TheSyn(s)] && t.log == s.log + [Sent(0, 1, true)] && t.timers.syn
        && t.hs.retries == s.hs.retries + 1 && !t.probe.active && t.probe.recovering
  {
    hide Karn, Reductions;
  }

  function TheSyn(s: State): Packet {
    Packet(Flags(true, false, false, false, false, s.config.ecnEnabled, s.config.ecnEnabled), 0, 0, 0, s.config.receiveWindow,
           s.config.sackEnabled, [], false)
  }

  /** The first plain SYN-ACK of our SYN opens the connection with what both ends offer, samples a
      running probe, and is acknowledged; repeated from the same position it is only acknowledged
      again, and any other SYN changes nothing. */
  lemma SynAckRule(s: State, p: Packet, c: Choices)
    requires Inv(s) && !s.terminated && !s.conn.finSent && p.flags.syn && !p.flags.rst && !p.flags.fin
    requires ValidSACKOptions(p) && SequenceEnd(p).Some? && (s.hs.completed ==> s.stream.remaining > 0 || s.stream.unsent.None?)
    ensures var t := Step(s, Arrives(p, c));
      var ours := s.hs.started && p.flags.ack && !p.flags.psh && p.size == 0 && p.ackNo == 1;
      if ours && !s.hs.completed then
        && t.hs.completed && t.hs.retries == 0 && t.space.peerInitial == p.seqNo && t.space.receive == p.seqNo + 1 && t.space.una == 1
        && t.space.windowEnd == Min(1 + p.window, MAX_UINT64) && t.space.peerWindow == p.window
        && t.loss.sack == (s.config.sackEnabled && p.sackPermitted)
        && t.loss.ecn == (s.config.ecnEnabled && p.flags.ece && !p.flags.cwr)
        && t.log == s.log + SampleEntries(s, 1) && !t.timers.syn
        && t.out == s.out + [Segment(Flags(false, false, false, true, false, false, false), 0, 1, p.seqNo + 1).(window := s.config.receiveWindow)]
      else if ours && p.seqNo == s.space.peerInitial then
        t == s.(out := s.out + [Segment(Flags(false, false, false, true, false, false, false), 0, s.space.next, s.space.receive)
                                .(window := s.config.receiveWindow)])
      else t == s
  {
    hide Inv, HandleSynAck;
    BeforeOpen(s);
    if !s.hs.completed {
      SynAckOpens(s, p);
    } else {
      SynAckAgain(s, p);
    }
  }

  lemma SynAckOpens(s: State, p: Packet)
    requires !s.hs.completed && !s.terminated && SequenceEnd(p).Some? && !p.flags.fin && p.flags.syn && (s.hs.started ==> s.space.next == 1)
    ensures var t := HandleSynAck(s, p, SequenceEnd(p).value);
      if s.hs.started && p.flags.ack && !p.flags.psh && p.size == 0 && p.ackNo == 1 then
        && t.hs.completed && t.hs.retries == 0 && t.space.peerInitial == p.seqNo && t.space.receive == p.seqNo + 1 && t.space.una == 1
        && t.space.windowEnd == Min(1 + p.window, MAX_UINT64) && t.space.peerWindow == p.window
        && t.loss.sack == (s.config.sackEnabled && p.sackPermitted)
        && t.loss.ecn == (s.config.ecnEnabled && p.flags.ece && !p.flags.cwr)
        && t.log == s.log + SampleEntries(s, 1) && !t.timers.syn
        && t.out == s.out + [Segment(Flags(false, false, false, true, false, false, false), 0, 1, p.seqNo + 1).(window := s.config.receiveWindow)]
      else t == s
  {
    hide QueueSegment, ObserveRTTACK;
    ObserveRTTFrame(s, 1);
    SampleIs(s, 1);
    OpenedQueue(EmitACK(OpenConnection(ObserveRTTACK(s, 1), p, SequenceEnd(p).value)));
  }

  lemma SynAckAgain(s: State, p: Packet)
    requires s.hs.completed && !s.terminated && SequenceEnd(p).Some? && p.flags.syn && (s.stream.remaining > 0 || s.stream.unsent.None?)
    ensures HandleSynAck(s, p, SequenceEnd(p).value) ==
      if s.hs.started && p.flags.ack && !p.flags.psh && p.size == 0 && p.ackNo == 1 && p.seqNo == s.space.peerInitial then
        s.(out := s.out + [Segment(Flags(false, false, false, true, false, false, false), 0, s.space.next, s.space.receive)
                           .(window := s.config.receiveWindow)])
      else s
  {
    hide QueueSegment;
    QueueStill(EmitACK(s));
  }

  lemma BeforeOpen(s: State)
    requires Inv(s) && !s.terminated
    ensures !s.hs.completed && s.hs.started ==> s.space.next == 1
  {
    hide Karn, Reductions;
  }

  lemma SampleIs(s: State, ack: nat)
    ensures ObserveRTTACK(s, ack).log == s.log + SampleEntries(s, ack)
  {
  }

  lemma OpenedQueue(s: State)
    ensures var t := QueueSegment(s);
      && t.out == s.out && t.log == s.log && t.hs == s.hs && t.loss.sack == s.loss.sack && t.loss.ecn == s.loss.ecn
      && t.space.(next := s.space.next) == s.space && t.timers.syn == s.timers.syn
  {
  }

  lemma QueueStill(s: State)
    requires s.stream.remaining > 0 || s.stream.unsent.None?
    ensures QueueSegment(s) == s
  {
  }

  // ---------- Ending ----------

  /** A reset ends the connection exactly at the expected position: of our SYN before the handshake
      is done, afterwards of what the peer sends next and with a valid acknowledgement. */
  lemma ResetRule(s: State, p: Packet, c: Choices)
    requires !s.terminated && p.flags.rst && !p.flags.syn && ValidSACKOptions(p) && SequenceEnd(p).Some?
    ensures var t := Step(s, Arrives(p, c));
      var plain := p.size == 0 && !p.flags.fin && !p.flags.psh;
      var placed := if s.hs.completed then p.seqNo == s.space.receive && (p.flags.ack ==> 1 <= p.ackNo <= s.space.next)
                    else s.hs.started && p.flags.ack && p.ackNo == s.space.next;
      if plain && placed then t.terminated && t.conn.outcome == Reset && t.out == s.out else t == s
  {
  }

  /** Once our FIN is sent, a pure ACK at the expected position confirms it exactly when it is of the
      position behind it: the last of both FINs ends the connection gracefully, ours before the
      peer's leads to FIN_WAIT_2 and after it to TIME_WAIT. */
  lemma FINConfirmRule(s: State, p: Packet, c: Choices)
    requires Inv(s) && !s.terminated && s.hs.completed && s.conn.finSent && !s.conn.finAcked && IsACK(s, p)
    ensures var t := Step(s, Arrives(p, c));
      && t.out == s.out
      && if p.ackNo != s.conn.finSeq + 1 then !t.conn.finAcked && !t.terminated && t.conn == s.conn
         else
           && t.conn.finAcked
           && (if s.conn.tcp == LastAck then t.terminated && t.conn.outcome == Graceful
               else if s.conn.peerFIN then t.conn.tcp == TimeWait && t.timers.wait && !t.timers.fin
               else t.conn.tcp == FinWait2 && t.timers.wait && !t.timers.fin)
  {
    hide Karn, Reductions, HandleDataACK, FollowUp, HandleFIN;
    EchoEffect(s, p, c);
    hide ObserveECN;
  }

  /** The peer's FIN is acknowledged; before ours it makes us close, after ours it leads to the
      state that our own confirmation determines. */
  lemma PeerFINRule(s: State, p: Packet, c: Choices)
    requires Inv(s) && !s.terminated && s.hs.completed && s.conn.finSent && !s.conn.peerFIN && EndsPeer(s, p)
    ensures var t := Step(s, Arrives(p, c));
      if s.conn.tcp == FinWait1 && p.ackNo == s.conn.finSeq + 1 && !s.conn.finAcked then t.conn.tcp == TimeWait && t.conn.peerFIN
      else t.conn.peerFIN && t.conn.tcp == (if s.conn.finAcked then TimeWait else Closing)
  {
    hide Karn, Reductions, HandleDataACK, FollowUp;
    EchoEffect(s, p, c);
    hide ObserveECN;
  }

  /** A repeat of the peer's FIN is acknowledged at once, whatever we still have to confirm, unless
      it confirms the last thing we wait for and so ends the connection. */
  lemma RepeatedFINRule(s: State, p: Packet, c: Choices)
    requires Inv(s) && !s.terminated && s.hs.completed && s.conn.peerFIN
    requires p.flags.fin && p.flags.ack && !p.flags.syn && !p.flags.rst && !p.flags.psh && p.size == 0 && ValidSACKOptions(p)
    requires p.seqNo + 1 == s.space.receive && s.space.receive <= MAX_UINT64
    requires 1 <= p.ackNo <= (if s.conn.finSent then s.space.next else s.space.una) && p.ackNo <= MAX_UINT64 && !c.newSACKInformation
    ensures var t := Step(s, Arrives(p, c));
      if s.conn.tcp == LastAck && p.ackNo == s.conn.finSeq + 1 then t.terminated && t.conn.outcome == Graceful && t.out == s.out
      else
        && !t.terminated && t.conn.peerFIN && t.space.receive == s.space.receive
        && t.out == s.out + [Segment(Flags(false, false, false, true, false, false, false), 0, s.space.next, s.space.receive)
                             .(window := s.config.receiveWindow)]
  {
    hide Step;
    FINFlags(s);
    if s.conn.finSent {
      RepeatAfterFIN(s, p, c);
    } else {
      RepeatBeforeFIN(s, p, c);
    }
  }

  /** The packet is a repeat of the FIN that was consumed. */
  predicate RepeatsFIN(s: State, p: Packet) {
    && !s.terminated && s.hs.completed && s.conn.peerFIN
    && p.flags.fin && p.flags.ack && !p.flags.syn && !p.flags.rst && !p.flags.psh && p.size == 0 && ValidSACKOptions(p)
    && p.seqNo + 1 == s.space.receive && s.space.receive <= MAX_UINT64 && 1 <= p.ackNo <= s.space.next && p.ackNo <= MAX_UINT64
  }

  ghost predicate AnsweredOnly(s: State, t: State) {
    && !t.terminated && t.conn.peerFIN && t.space.receive == s.space.receive
    && t.out == s.out + [Segment(Flags(false, false, false, true, false, false, false), 0, s.space.next, s.space.receive)
                         .(window := s.config.receiveWindow)]
  }

  lemma RepeatAfterFIN(s: State, p: Packet, c: Choices)
    requires RepeatsFIN(s, p) && s.conn.finSent && (s.conn.tcp == LastAck ==> !s.conn.finAcked)
    ensures var t := Step(s, Arrives(p, c));
      if s.conn.tcp == LastAck && p.ackNo == s.conn.finSeq + 1 then t.terminated && t.conn.outcome == Graceful && t.out == s.out
      else AnsweredOnly(s, t)
  {
    EchoEffect(s, p, c);
    hide EchoEntries, Step, HandleFIN;
    RepeatPath(s, p, c);
    var marked := ObserveECN(s, p, c);
    hide ObserveECN;
    var acked := AcknowledgeFIN(marked, p.ackNo);
    if !acked.terminated {
      RepeatEmits(acked, p);
    }
  }

  lemma RepeatPath(s: State, p: Packet, c: Choices)
    requires RepeatsFIN(s, p) && s.conn.finSent
    ensures var acked := AcknowledgeFIN(ObserveECN(s, p, c), p.ackNo);
      Step(s, Arrives(p, c)) == if acked.terminated then acked else HandleFIN(acked, p, p.seqNo + 1)
  {
    hide ObserveECN, AcknowledgeFIN, HandleDataACK, FollowUp, HandleFIN;
  }

  lemma RepeatEmits(s: State, p: Packet)
    requires RepeatsFIN(s, p)
    ensures AnsweredOnly(s, HandleFIN(s, p, p.seqNo + 1))
  {
  }

  lemma RepeatBeforeFIN(s: State, p: Packet, c: Choices)
    requires RepeatsFIN(s, p) && !s.conn.finSent && p.ackNo <= s.space.una && !c.newSACKInformation
    ensures AnsweredOnly(s, Step(s, Arrives(p, c)))
  {
    EchoEffect(s, p, c);
    hide ObserveECN, EchoEntries, QueueSegment, EnterRecovery, HandleDataACK;
    var marked := ObserveECN(s, p, c);
    QuietFIN(marked, p, c);
    var closed := HandleFIN(HandleDataACK(marked, p, c), p, p.seqNo + 1);
    QueueQuiet(closed);
    QueueQuiet(ObserveSACK(closed, c, false));
  }

  lemma FINFlags(s: State)
    requires Inv(s) && !s.terminated
    ensures s.conn.tcp == LastAck ==> s.conn.finSent && !s.conn.finAcked && s.conn.peerFIN
    ensures s.conn.tcp == Closing || s.conn.tcp == FinWait1 ==> s.conn.finSent
    ensures s.conn.finSent ==> s.conn.finSeq + 1 == s.space.next
  {
    hide Karn, Reductions;
  }

  lemma QuietFIN(s: State, p: Packet, c: Choices)
    requires p.flags.fin && p.ackNo <= s.space.una && p.ackNo <= MAX_UINT64
    ensures var t := HandleDataACK(s, p, c);
      && t.out == s.out && t.conn == s.conn && t.hs == s.hs && t.terminated == s.terminated && t.config == s.config
      && t.space.(windowEnd := s.space.windowEnd, peerWindow := s.space.peerWindow) == s.space
  {
  }

  lemma QueueQuiet(s: State)
    ensures var t := QueueSegment(s);
      && t.out == s.out && t.space.receive == s.space.receive && t.conn.peerFIN == s.conn.peerFIN && t.terminated == s.terminated
  {
  }

  /** Malformed packets, and those that lie or acknowledge outside what was exchanged, change
      nothing at all. */
  lemma IgnoredRule(s: State, p: Packet, c: Choices)
    ensures var t := Step(s, Arrives(p, c));
      var malformed := OddOptions(p) || LeavesPositions(p) || (p.flags.syn && p.flags.fin)
                       || (p.flags.fin && (p.size != 0 || p.flags.psh));
      var outside := !s.hs.completed || !p.flags.ack || p.size != 0 || p.ackNo < 1 || p.ackNo > s.space.next
                     || (p.seqNo != s.space.receive && !(p.flags.fin && s.conn.peerFIN && p.seqNo + 1 == s.space.receive));
      s.terminated || malformed || (!p.flags.rst && !p.flags.syn && outside) ==> t == s
  {
    WellFormed(p);
    hide ObserveECN, AcknowledgeFIN, HandleDataACK, HandleFIN, FollowUp, HandleReset, HandleSynAck;
  }

  /** How the last waits and the last tries end. */
  lemma TimerOutcomes(s: State)
    requires Inv(s) && !s.terminated
    ensures s.conn.tcp == TimeWait ==> Step(s, WaitTimerFires).conn.outcome == Graceful
    ensures s.conn.tcp == FinWait2 ==> Step(s, WaitTimerFires).conn.outcome == WaitTimeout
    ensures s.timers.fin && !s.conn.finAcked ==>
      var t := Step(s, FinTimerFires);
      if s.conn.finRetries >= s.config.maxFINRetries then t.terminated && t.conn.outcome == FINRetryLimit
      else t.conn.finRetries == s.conn.finRetries + 1 && !t.terminated
  {
    hide Karn, Reductions;
  }

  /** Closing before the handshake gives up; afterwards the FIN takes its position as soon as all
      accepted payload is confirmed. */
  lemma CloseRule(s: State)
    requires Inv(s) && !s.terminated
    ensures var t := Step(s, DoClose);
      && t.out == s.out
      && (!s.hs.completed ==> t.terminated && t.conn.outcome == Aborted)
      && (s.hs.completed ==> !t.terminated && t.conn.requested)
      && (s.hs.completed && Unsent(s.stream) == 0 && s.space.pending == [] && !s.conn.finSent ==>
            t.conn.finSent && t.conn.finSeq == s.space.next && t.space.next == s.space.next + 1 && t.timers.finStart
            && t.conn.tcp == (if s.conn.peerFIN then LastAck else FinWait1) && t.loss.duplicates == 0 && t.loss.until == 0)
  {
    hide Karn, Reductions;
  }

  /** The FIN leaves once, at its position, and from then on its timer runs. */
  lemma FINRule(s: State)
    requires Inv(s) && !s.terminated && s.timers.finStart
    ensures var t := Step(s, FinSendFires);
      && !t.timers.finStart
      && (!s.conn.finAcked ==>
            && t.timers.fin
            && t.out == s.out + [Segment(Flags(false, true, false, true, false, false, false), 0, s.conn.finSeq, s.space.receive)
                                 .(window := s.config.receiveWindow)])
  {
    hide Karn, Reductions;
  }

  /** One stream is accepted, before closing; a second changes nothing. */
  lemma SourceRule(s: State, size: nat)
    requires Inv(s) && size <= MAX_INT64
    ensures var t := Step(s, DoSetSource(size));
      if s.terminated || s.conn.requested || s.stream.unsent.Some? then t == s
      else t.stream.unsent == Some(size) && t.stream.size == size && t.stream.remaining == size && t.out == s.out
  {
    hide Karn, Reductions;
  }

  /** In every reachable state of a live sender: it closes as soon as it was asked to and everything
      is confirmed. */
  lemma RunCloses(config: Config, inputs: seq<Input>)
    ensures var s := Run(config, inputs);
      !s.terminated && s.stream.completed ==> s.conn.finSent && s.conn.finSeq == s.stream.size + 1
  {
    RunInv(config, inputs);
    hide Run, Karn, Reductions, ClosingAgrees;
  }
}
