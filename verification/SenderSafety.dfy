/** What every run of a sender keeps, whatever packets arrive: byte accounting, agreement
    of the TCP state with the closing flags, Karn's rule, and one window reduction per
    flight. Nothing here assumes a well-behaved peer or network. */
module SenderSafety {
  import opened Basics
  import opened Packets
  import opened Sender
  import SB = SendBuffer

  // ---------- Byte accounting ----------

  /** The position after the last payload byte handed to the network. */
  function DataEnd(conn: Connection, space: Space): int {
    if conn.finSent then conn.finSeq else space.next
  }

  ghost predicate BeforeHandshake(hs: Handshake, conn: Connection, space: Space, stream: Stream) {
    && space.pending == [] && space.una == 0
    && space.next == (if hs.started then 1 else 0)
    && !conn.finSent && !conn.peerFIN && !conn.requested
    && stream.remaining == Unsent(stream) == stream.size
    && stream.acknowledged == 0 && !stream.completed
  }

  ghost predicate AfterHandshake(terminated: bool, hs: Handshake, conn: Connection, space: Space, stream: Stream) {
    && hs.started
    && 1 <= space.una <= DataEnd(conn, space)
    && stream.acknowledged == space.una - 1
    && stream.remaining == stream.size - stream.acknowledged
    && DataEnd(conn, space) - 1 + Unsent(stream) == stream.size
    && space.receive == space.peerInitial + 1 + (if conn.peerFIN then 1 else 0)
    && (conn.peerFIN ==> conn.requested)
    && SB.Stamped(space.pending, space.peerInitial + 1, space.receive)
    && (if terminated then space.pending == [] else SB.Tiles(space.pending, space.una, DataEnd(conn, space)))
    && (conn.finSent ==> space.next == conn.finSeq + 1 && space.una == conn.finSeq
                         && space.pending == [] && Unsent(stream) == 0 && conn.requested)
    && (stream.completed ==> stream.unsent.Some? && stream.acknowledged == stream.size && (terminated || conn.finSent))
  }

  ghost predicate Accounting(terminated: bool, hs: Handshake, conn: Connection, space: Space, stream: Stream) {
    && stream.size <= MAX_INT64
    && (stream.unsent.None? ==> stream.size == 0)
    && (stream.transfer.Succeeded? <==> stream.completed)
    && (hs.synWaiting ==> hs.started && !terminated)
    && (!hs.started || hs.synWaiting ==> hs.retries == 0)
    && space.windowEnd <= MAX_UINT64
    && if hs.completed then AfterHandshake(terminated, hs, conn, space, stream)
       else BeforeHandshake(hs, conn, space, stream)
  }

  // ---------- The TCP state against the closing flags ----------

  ghost predicate ClosingAgrees(terminated: bool, hs: Handshake, conn: Connection) {
    && (conn.finAcked ==> conn.finSent)
    && (terminated <==> !conn.outcome.NoOutcome?)
    && (conn.outcome.Graceful? ==> conn.finSent && conn.finAcked && conn.peerFIN)
    && if terminated then conn.tcp.Closed?
       else if !hs.completed then conn.tcp == (if hs.started then SynSent else Closed)
       else if !conn.finSent then conn.tcp == (if conn.peerFIN then CloseWait else Established)
       else if conn.finAcked then conn.tcp == (if conn.peerFIN then TimeWait else FinWait2)
       else if conn.peerFIN then conn.tcp.LastAck? || conn.tcp.Closing?
       else conn.tcp.FinWait1?
  }

  // ---------- Karn's rule (section 3 of RFC 6298) ----------

  /** Originals go to fresh positions: everything sent before one ends before it. */
  ghost predicate OriginalsFresh(log: seq<Entry>) {
    forall i, j :: 0 <= i < j < |log| && log[i].Sent? && log[j].Sent? && !log[j].again
      ==> log[i].end <= log[j].start
  }

  /** Entry `at` is an original ending at `end`, and entries up to `to` repeat nothing after it. */
  ghost predicate Unambiguous(log: seq<Entry>, at: nat, to: int, end: int) {
    && at < to <= |log| && log[at].Sent? && !log[at].again && log[at].start < log[at].end == end
    && forall k :: at < k < to && log[k].Sent? ==> !log[k].again
  }

  ghost predicate SamplesUnambiguous(log: seq<Entry>) {
    forall i :: 0 <= i < |log| && log[i].Sampled? ==>
      && log[i].sentAt < i
      && log[log[i].sentAt].Sent?
      && Unambiguous(log, log[i].sentAt, i, log[log[i].sentAt].end)
      && log[log[i].sentAt].end <= log[i].ack
  }

  ghost predicate SentBelow(log: seq<Entry>, limit: int) {
    forall i :: 0 <= i < |log| && log[i].Sent? ==> log[i].end <= limit
  }

  /** `quiet`: nothing was sent yet. */
  ghost predicate Karn(quiet: bool, next: nat, probe: Probe, log: seq<Entry>) {
    && OriginalsFresh(log)
    && SamplesUnambiguous(log)
    && SentBelow(log, next)
    && (quiet ==> log == [])
    && (probe.active ==> !probe.recovering && Unambiguous(log, probe.sentAt, |log|, probe.endSeq))
  }

  // ---------- One reduction per flight (section 6.1.2 of RFC 3168) ----------

  ghost predicate ReductionsSpaced(log: seq<Entry>) {
    forall i, j :: 0 <= i < j < |log| && log[i].Reduced? && log[j].Reduced?
      ==> log[i].boundary <= log[j].ack && log[i].boundary <= log[j].boundary
  }

  ghost predicate BoundariesBelow(log: seq<Entry>, limit: int) {
    forall i :: 0 <= i < |log| && log[i].Reduced? ==> 1 <= log[i].boundary <= limit
  }

  /** The guard that protects the flights of all earlier reductions. */
  function Guard(loss: Loss, una: nat): int {
    if loss.ecn then loss.reductionEnd
    else if loss.sack then loss.recoveryEnd
    else Max(loss.until, una)
  }

  ghost predicate Reductions(terminated: bool, completed: bool, space: Space, loss: Loss, log: seq<Entry>) {
    && ReductionsSpaced(log)
    && BoundariesBelow(log, space.next)
    && (!terminated ==> BoundariesBelow(log, Guard(loss, space.una)))
    && loss.until <= space.next && loss.recoveryEnd <= space.next && loss.reductionEnd <= space.next
    && (!completed ==> BoundariesBelow(log, 0) && loss.until == loss.recoveryEnd == loss.reductionEnd == 0
                       && !loss.ecn && !loss.sack && !loss.recovering)
  }

  predicate Quiet(hs: Handshake) {
    !hs.started || (hs.synWaiting && !hs.completed)
  }

  // ---------- Timers ----------

  /** Whatever waits for an answer has its timer armed: the handshake, unconfirmed payload, an
      unconfirmed FIN, and the last waits; and a timer is armed only for those. */
  ghost predicate Armed(terminated: bool, hs: Handshake, conn: Connection, space: Space, timers: Timers) {
    && (terminated ==> timers == NO_TIMERS)
    && (timers.syn ==> hs.started && !hs.synWaiting && !hs.completed)
    && (hs.started && !hs.completed && !terminated ==> hs.synWaiting || timers.syn)
    && (!terminated && space.pending != [] ==> timers.data)
    && (timers.finStart || timers.fin ==> conn.finSent)
    && (conn.finSent && !conn.finAcked && !terminated ==> timers.finStart || timers.fin)
    && (timers.wait ==> conn.tcp.FinWait2? || conn.tcp.TimeWait?)
    && (!terminated && (conn.tcp.FinWait2? || conn.tcp.TimeWait?) ==> timers.wait)
  }

  ghost predicate Inv(s: State) {
    && Accounting(s.terminated, s.hs, s.conn, s.space, s.stream)
    && ClosingAgrees(s.terminated, s.hs, s.conn)
    && Karn(Quiet(s.hs), s.space.next, s.probe, s.log)
    && Reductions(s.terminated, s.hs.completed, s.space, s.loss, s.log)
    && Armed(s.terminated, s.hs, s.conn, s.space, s.timers)
  }

  // ---------- Appending to the log ----------

  lemma FreshAppend(log: seq<Entry>, e: Entry, limit: int)
    requires OriginalsFresh(log) && SentBelow(log, limit)
    requires e.Sent? && !e.again ==> limit <= e.start
    ensures OriginalsFresh(log + [e])
  {
  }

  lemma BelowAppend(log: seq<Entry>, e: Entry, limit: int, limit': int)
    requires SentBelow(log, limit) && limit <= limit'
    requires e.Sent? ==> e.end <= limit'
    ensures SentBelow(log + [e], limit')
  {
  }

  lemma UnambiguousAppend(log: seq<Entry>, e: Entry, at: nat, to: int, end: int)
    requires Unambiguous(log, at, to, end)
    ensures Unambiguous(log + [e], at, to, end)
    ensures to == |log| && (e.Sent? ==> !e.again) ==> Unambiguous(log + [e], at, to + 1, end)
  {
  }

  lemma SamplesAppend(log: seq<Entry>, e: Entry)
    requires SamplesUnambiguous(log)
    requires e.Sampled? ==> e.sentAt < |log| && log[e.sentAt].Sent? && log[e.sentAt].end <= e.ack
                            && Unambiguous(log, e.sentAt, |log|, log[e.sentAt].end)
    ensures SamplesUnambiguous(log + [e])
  {
    var longer := log + [e];
    forall i | 0 <= i < |longer| && longer[i].Sampled?
      ensures && longer[i].sentAt < i
              && longer[longer[i].sentAt].Sent?
              && Unambiguous(longer, longer[i].sentAt, i, longer[longer[i].sentAt].end)
              && longer[longer[i].sentAt].end <= longer[i].ack
    {
      assert longer[i] == (if i < |log| then log[i] else e);
      var at := longer[i].sentAt;
      assert longer[at] == log[at];
      UnambiguousAppend(log, e, at, i, log[at].end);
    }
  }

  lemma ReducedAppend(log: seq<Entry>, e: Entry, guard: int, limit: int)
    requires ReductionsSpaced(log) && BoundariesBelow(log, guard) && BoundariesBelow(log, limit)
    requires e.Reduced? && guard <= e.ack && guard <= e.boundary && 1 <= e.boundary <= limit
    ensures ReductionsSpaced(log + [e]) && BoundariesBelow(log + [e], limit)
  {
  }

  lemma PlainAppend(log: seq<Entry>, e: Entry)
    requires !e.Reduced? && ReductionsSpaced(log)
    ensures ReductionsSpaced(log + [e])
    ensures forall limit :: BoundariesBelow(log, limit) ==> BoundariesBelow(log + [e], limit)
  {
  }

  // ---------- Small operations ----------

  lemma EmitKeeps(s: State, p: Packet)
    ensures Inv(s) ==> Inv(Emit(s, p))
  {
  }

  lemma ShutdownKeeps(s: State)
    ensures Inv(s) ==> Inv(Shutdown(s))
  {
    hide OriginalsFresh, SamplesUnambiguous, SentBelow, ReductionsSpaced, BoundariesBelow, Unambiguous;
  }

  lemma FinishKeeps(s: State, outcome: CloseOutcome)
    requires !outcome.NoOutcome?
    requires outcome.Graceful? ==> s.conn.finSent && s.conn.finAcked && s.conn.peerFIN
    ensures Inv(s) ==> Inv(FinishConnection(s, outcome))
  {
    hide OriginalsFresh, SamplesUnambiguous, SentBelow, ReductionsSpaced, BoundariesBelow, Unambiguous;
  }

  lemma StartFINKeeps(s: State)
    requires (s.conn.requested ==> s.hs.completed)
    ensures Inv(s) ==> Inv(StartFIN(s))
  {
    if Inv(s) {
      if !(s.terminated || s.conn.finSent || !s.conn.requested || Unsent(s.stream) != 0 || s.space.pending != []) {
        SB.TilesOrdered(s.space.pending, s.space.una, s.space.next);
      }
    }
  }

  lemma QueueKeeps(s: State)
    ensures Inv(s) ==> Inv(QueueSegment(s))
  {
    if Inv(s) {
      if !(s.terminated || s.conn.finSent || !s.hs.completed || s.stream.unsent.None?) && s.stream.remaining == 0 {
        SB.TilesOrdered(s.space.pending, s.space.una, s.space.next);
      }
    }
  }

  lemma EstablishKeeps(s: State)
    ensures Inv(s) ==> Inv(Establish(s))
  {
  }

  lemma SetSourceKeeps(s: State, size: nat)
    requires size <= MAX_INT64
    ensures Inv(s) ==> Inv(SetSource(s, size))
  {
    hide Karn, Reductions, QueueSegment;
    if Inv(s) {
      if !(s.terminated || s.conn.requested || s.stream.unsent.Some?) {
        QueueKeeps(s.(stream := s.stream.(unsent := Some(size), size := size, remaining := size)));
      }
    }
  }

  lemma CloseKeeps(s: State)
    ensures Inv(s) ==> Inv(Close(s))
  {
    hide Karn, Reductions, QueueSegment, StartFIN;
    if Inv(s) {
      if !s.terminated {
        if s.hs.completed {
          var asked := s.(conn := s.conn.(requested := true));
          StartFINKeeps(asked);
          QueueKeeps(StartFIN(asked));
        } else {
          ShutdownKeeps(s);
        }
      }
    }
  }

  lemma ClosingTimersKeep(s: State)
    ensures Inv(s) ==> Inv(FinSend(s)) && Inv(RetryFIN(s)) && Inv(WaitExpired(s))
  {
    hide Karn, Reductions, Accounting, FinishConnection, Segment;
    FinishKeeps(s, FINRetryLimit);
    FinishKeeps(s, WaitTimeout);
    if Inv(s) && s.conn.tcp.TimeWait? { FinishKeeps(s, Graceful); }
    var counted := s.(conn := s.conn.(finRetries := s.conn.finRetries + 1));
    assert Inv(s) ==> Inv(counted) by { CountKeeps(s); }
    EmitKeeps(counted, Segment(FIN_FLAGS, 0, s.conn.finSeq, s.space.receive));
  }

  lemma CountKeeps(s: State)
    ensures Inv(s) ==> Inv(s.(conn := s.conn.(finRetries := s.conn.finRetries + 1)))
  {
    hide Karn, Reductions;
  }

  // ---------- The RTT probe ----------

  lemma SampleKeepsKarn(quiet: bool, next: nat, probe: Probe, log: seq<Entry>, ack: nat)
    requires Karn(quiet, next, probe, log) && probe.active && probe.endSeq <= ack
    ensures Karn(quiet, next, probe.(active := false), log + [Sampled(probe.sentAt, ack)])
  {
    var e := Sampled(probe.sentAt, ack);
    FreshAppend(log, e, next);
    BelowAppend(log, e, next, next);
    SamplesAppend(log, e);
  }

  lemma RetryKeepsKarn(quiet: bool, next: nat, probe: Probe, log: seq<Entry>, start: nat, end: nat)
    requires Karn(quiet, next, probe, log) && !quiet && start < end <= next
    ensures Karn(quiet, next, probe.(active := false, recovering := true, recoveryUntil := next), log + [Sent(start, end, true)])
  {
    var e := Sent(start, end, true);
    FreshAppend(log, e, next);
    BelowAppend(log, e, next, next);
    SamplesAppend(log, e);
  }

  /** An original transmission of positions nothing was sent to before, timed or not. */
  lemma OriginalKeepsKarn(quiet: bool, next: nat, probe: Probe, log: seq<Entry>, start: nat, end: nat)
    requires Karn(quiet, next, probe, log) && !quiet && start < end && SentBelow(log, start)
    requires next <= end
    ensures var longer := log + [Sent(start, end, false)];
      && Karn(quiet, end, probe, longer)
      && (!probe.recovering ==> Karn(quiet, end, probe.(active := true, sentAt := |log|, endSeq := end), longer))
  {
    var e := Sent(start, end, false);
    FreshAppend(log, e, start);
    BelowAppend(log, e, start, end);
    SamplesAppend(log, e);
    if probe.active {
      UnambiguousAppend(log, e, probe.sentAt, |log|, probe.endSeq);
    }
  }

  lemma PlainKeepsReductions(terminated: bool, completed: bool, space: Space, loss: Loss, log: seq<Entry>, e: Entry)
    requires Reductions(terminated, completed, space, loss, log) && !e.Reduced?
    ensures Reductions(terminated, completed, space, loss, log + [e])
  {
    PlainAppend(log, e);
  }

  lemma ObserveRTTKeeps(s: State, ack: nat)
    ensures Inv(s) ==> Inv(ObserveRTTACK(s, ack))
  {
    if Inv(s) {
      if !s.probe.recovering && s.probe.active && ack >= s.probe.endSeq {
        hide Karn, Reductions, Accounting, ClosingAgrees;
        SampleKeepsKarn(Quiet(s.hs), s.space.next, s.probe, s.log, ack);
        PlainKeepsReductions(s.terminated, s.hs.completed, s.space, s.loss, s.log, Sampled(s.probe.sentAt, ack));
      }
    }
  }

  lemma ObserveRTTFrame(s: State, ack: nat)
    ensures var o := ObserveRTTACK(s, ack); o == s.(probe := o.probe, log := o.log)
  {
  }

  lemma RetryKeeps(s: State, start: nat, end: nat)
    requires !Quiet(s.hs) && start < end <= s.space.next
    ensures Inv(s) ==> Inv(RecordRetry(s, start, end))
  {
    if Inv(s) {
      RetryKeepsKarn(Quiet(s.hs), s.space.next, s.probe, s.log, start, end);
      PlainKeepsReductions(s.terminated, s.hs.completed, s.space, s.loss, s.log, Sent(start, end, true));
      hide Karn;
    }
  }

  // ---------- Handshake ----------

  lemma SynTimeoutKeeps(s: State)
    ensures Inv(s) ==> Inv(SynTimeout(s))
  {
    hide Karn, Reductions, SB.Tiles;
    if Inv(s) && s.timers.syn {
      if s.hs.retries >= MAX_RETRANSMISSIONS {
        ShutdownKeeps(s);
      } else {
        SynRetryLog(s);
      }
    }
  }

  lemma SynRetryLog(s: State)
    requires Inv(s) && s.timers.syn
    ensures var longer := s.log + [Sent(0, 1, true)];
      && Karn(false, s.space.next, s.probe.(active := false, recovering := true, recoveryUntil := s.space.next), longer)
      && Reductions(s.terminated, s.hs.completed, s.space, s.loss, longer)
  {
    hide OriginalsFresh, SamplesUnambiguous, SentBelow, ReductionsSpaced, BoundariesBelow, Unambiguous;
    RetryKeepsKarn(false, s.space.next, s.probe, s.log, 0, 1);
    PlainKeepsReductions(s.terminated, s.hs.completed, s.space, s.loss, s.log, Sent(0, 1, true));
  }

  lemma SynSendKeeps(s: State)
    ensures Inv(s) ==> Inv(SynSend(s))
  {
    hide Karn, Reductions, SB.Tiles;
    if Inv(s) && s.hs.synWaiting && !s.hs.completed {
      FirstSyn(s);
    }
  }

  lemma FirstSyn(s: State)
    requires Inv(s) && s.hs.synWaiting && !s.hs.completed
    ensures s.log == [] && !s.terminated && s.hs.retries == 0 && !s.conn.finSent
    ensures var sent := SynSend(s);
      && Karn(false, s.space.next, sent.probe, sent.log)
      && Reductions(s.terminated, s.hs.completed, s.space, s.loss, sent.log)
  {
    hide OriginalsFresh, SamplesUnambiguous, SentBelow, ReductionsSpaced, BoundariesBelow, Unambiguous;
    var e := Sent(0, 1, false);
    OriginalKeepsKarn(false, 1, s.probe, [], 0, 1);
    assert s.log + [e] == [e];
    PlainKeepsReductions(s.terminated, s.hs.completed, s.space, s.loss, s.log, e);
  }

  lemma OpenKeeps(s: State, p: Packet, end: nat)
    requires s.hs.started && !s.hs.completed && !s.terminated
    requires end == p.seqNo + 1
    ensures Inv(s) ==> Inv(OpenConnection(s, p, end))
  {
    if Inv(s) {
      hide Karn;
    }
  }

  lemma SynAckKeeps(s: State, p: Packet, end: nat)
    requires p.flags.syn && !p.flags.fin && !s.terminated
    requires SequenceEnd(p) == Some(end)
    ensures Inv(s) ==> Inv(HandleSynAck(s, p, end))
  {
    hide OriginalsFresh, SamplesUnambiguous, SentBelow, ReductionsSpaced, BoundariesBelow, Unambiguous;
    hide QueueSegment, Segment, Emit;
    var observed := ObserveRTTACK(s, p.ackNo);
    ObserveRTTKeeps(s, p.ackNo);
    ObserveRTTFrame(s, p.ackNo);
    if s.hs.started && !s.hs.completed && p.size == 0 {
      OpenKeeps(observed, p, end);
    }
    hide Inv, ObserveRTTACK, OpenConnection;
    var ready := OpenConnection(observed, p, end);
    EmitKeeps(s, Segment(ACK_FLAGS, 0, s.space.next, s.space.receive));
    EmitKeeps(ready, Segment(ACK_FLAGS, 0, ready.space.next, ready.space.receive));
    QueueKeeps(EmitACK(s));
    QueueKeeps(EmitACK(ready));
  }

  // ---------- New data ----------

  lemma TakeKeeps(s: State, size: nat)
    requires Inv(s) && !s.terminated && s.hs.completed && !s.conn.finSent && 0 < size <= Unsent(s.stream)
    ensures var t := TakePayload(s, size);
      && Accounting(t.terminated, t.hs, t.conn, t.space, t.stream)
      && Reductions(t.terminated, t.hs.completed, t.space, t.loss, t.log)
  {
    hide Karn;
    SB.AppendTiles(s.space.pending, s.space.una, s.space.next, size, s.space.receive);
  }

  lemma SendNewKeeps(s: State, limit: Option<nat>, pipe: nat)
    ensures Inv(s) ==> Inv(SendNew(s, limit, pipe))
  {
    if Inv(s) && !(s.terminated || s.conn.finSent || !s.hs.completed || s.stream.unsent.None?) {
      hide Inv, QueueSegment, Emit;
      if NextPayloadSize(s, limit, pipe) > 0 {
        TakenKeeps(s, NextPayloadSize(s, limit, pipe));
        SentKeeps(s, limit, pipe, NextPayloadSize(s, limit, pipe));
      }
    }
  }

  lemma TakenKeeps(s: State, size: nat)
    requires Inv(s) && !s.terminated && s.hs.completed && !s.conn.finSent && 0 < size <= Unsent(s.stream)
    ensures var t := TakePayload(s, size);
      var longer := s.log + [Sent(s.space.next, t.space.next, false)];
      && Accounting(t.terminated, t.hs, t.conn, t.space, t.stream)
      && Karn(false, t.space.next, StartProbe(t, t.space.next).probe, longer)
      && Reductions(t.terminated, t.hs.completed, t.space, t.loss, longer)
  {
    hide OriginalsFresh, SamplesUnambiguous, SentBelow, ReductionsSpaced, BoundariesBelow, Unambiguous;
    TakeKeeps(s, size);
    OriginalKeepsKarn(false, s.space.next, s.probe, s.log, s.space.next, s.space.next + size);
    PlainKeepsReductions(s.terminated, true, TakePayload(s, size).space, s.loss, s.log, Sent(s.space.next, s.space.next + size, false));
  }

  /** The sender after taking, timing and logging `size` fresh bytes. */
  function Marked(s: State, size: nat): State
    requires size <= Unsent(s.stream)
  {
    var taken := Record(StartProbe(TakePayload(s, size), s.space.next + size), Sent(s.space.next, s.space.next + size, false));
    taken.(loss := s.loss.(cwrPending := s.loss.cwrPending && !s.loss.ecn), timers := s.timers.(data := true))
  }

  function NewPacket(s: State, size: nat): Packet {
    Segment(DATA_FLAGS.(cwr := s.loss.ecn && s.loss.cwrPending), size, s.space.next, s.space.receive)
  }

  lemma SentAs(s: State, limit: Option<nat>, pipe: nat, size: nat)
    requires !(s.terminated || s.conn.finSent || !s.hs.completed || s.stream.unsent.None?)
    requires size == NextPayloadSize(s, limit, pipe) > 0
    ensures size <= Unsent(s.stream) && SendNew(s, limit, pipe) == QueueSegment(Emit(Marked(s, size), NewPacket(s, size)))
  {
    hide QueueSegment, StartProbe, Emit;
  }

  lemma MarkedInv(s: State, size: nat)
    requires Inv(s) && size <= Unsent(s.stream) && !(s.terminated || s.conn.finSent || !s.hs.completed || s.stream.unsent.None?)
    requires var t := TakePayload(s, size);
      var longer := s.log + [Sent(s.space.next, t.space.next, false)];
      && Accounting(t.terminated, t.hs, t.conn, t.space, t.stream)
      && Karn(false, t.space.next, StartProbe(t, t.space.next).probe, longer)
      && Reductions(t.terminated, t.hs.completed, t.space, t.loss, longer)
    ensures Inv(Marked(s, size))
  {
    hide Karn, SB.Tiles;
  }

  lemma SentKeeps(s: State, limit: Option<nat>, pipe: nat, size: nat)
    requires Inv(s)
    requires !(s.terminated || s.conn.finSent || !s.hs.completed || s.stream.unsent.None?)
    requires size == NextPayloadSize(s, limit, pipe) > 0
    requires var t := TakePayload(s, size);
      var longer := s.log + [Sent(s.space.next, t.space.next, false)];
      && Accounting(t.terminated, t.hs, t.conn, t.space, t.stream)
      && Karn(false, t.space.next, StartProbe(t, t.space.next).probe, longer)
      && Reductions(t.terminated, t.hs.completed, t.space, t.loss, longer)
    ensures Inv(SendNew(s, limit, pipe))
  {
    hide *;
    SentAs(s, limit, pipe, size);
    MarkedInv(s, size);
    EmitKeeps(Marked(s, size), NewPacket(s, size));
    QueueKeeps(Emit(Marked(s, size), NewPacket(s, size)));
  }

  // ---------- Retransmission ----------

  lemma PrepareKeeps(s: State)
    ensures Inv(s) ==> Inv(PrepareDataRetry(s).0)
    ensures Inv(s) && PrepareDataRetry(s).1.Some? ==> PrepareDataRetry(s).0.hs.completed
  {
    if Inv(s) {
      hide Karn, Reductions;
      if !(s.terminated || s.conn.finSent || s.space.pending == []) {
        if s.space.oldestRetries >= MAX_RETRANSMISSIONS {
          ShutdownKeeps(s);
        } else {
          var oldest := s.space.pending[0];
          SB.TilesOrdered(s.space.pending[1..], oldest.seqNo + oldest.size, s.space.next);
          RetryKeeps(s, oldest.seqNo, oldest.seqNo + oldest.size);
        }
      }
    }
  }

  lemma TimeoutKeeps(s: State)
    requires s.hs.completed
    ensures Inv(s) ==> Inv(TimeoutLoss(s))
  {
    hide Karn, Accounting, Armed, ClosingAgrees, ReductionsSpaced;
  }

  lemma ArmKeeps(s: State)
    requires !s.terminated
    ensures Inv(s) ==> Inv(ArmData(s))
  {
    hide Karn, Reductions, Accounting;
  }

  /** A repeat was prepared only on a live connection; without one nothing needs the timer. */
  lemma PreparedFacts(s: State)
    ensures var (retried, packet) := PrepareDataRetry(s);
      && (packet.Some? ==> !retried.terminated && !TimeoutLoss(retried).terminated)
      && (packet.None? && Inv(s) ==> Inv(retried.(timers := retried.timers.(data := false))))
  {
    hide Karn, Reductions, Accounting;
    ShutdownKeeps(s);
    if Inv(s) {
      PendingFacts(s);
    }
  }

  lemma PendingFacts(s: State)
    requires Inv(s)
    ensures s.terminated || s.conn.finSent ==> s.space.pending == []
  {
    hide Karn, Reductions;
  }

  lemma RetransmitKeeps(s: State, restart: bool)
    ensures Inv(s) ==> Inv(RetransmitData(s)) && Inv(FastRetransmitOldest(s, restart))
  {
    hide Inv, PrepareDataRetry, TimeoutLoss, Emit;
    PrepareKeeps(s);
    PreparedFacts(s);
    var (retried, packet) := PrepareDataRetry(s);
    if packet.Some? && Inv(s) {
      TimeoutKeeps(retried);
      ArmKeeps(TimeoutLoss(retried));
      ArmKeeps(retried);
      EmitKeeps(ArmData(TimeoutLoss(retried)), packet.value);
      EmitKeeps(ArmData(retried), packet.value);
      EmitKeeps(retried, packet.value);
    }
  }

  lemma RepairKeeps(s: State, hole: SACKBlock)
    ensures Inv(s) ==> Inv(RepairHole(s, hole))
  {
    hide OriginalsFresh, SamplesUnambiguous, SentBelow, ReductionsSpaced, BoundariesBelow, Unambiguous;
    hide RecordRetry, Shutdown, Emit, Segment;
    if Inv(s) && !(s.terminated || s.conn.finSent || !s.loss.recovering || !Outstanding(s, hole)) {
      RecoveringFacts(s);
      RetryKeeps(s, hole.start, hole.end);
    }
    hide Inv;
    ShutdownKeeps(s);
    if hole.start < hole.end && !s.terminated {
      RetryAlive(s, hole.start, hole.end);
      ArmKeeps(RecordRetry(s, hole.start, hole.end));
      EmitKeeps(ArmData(RecordRetry(s, hole.start, hole.end)),
                Segment(DATA_FLAGS, hole.end - hole.start, hole.start, s.space.receive));
    }
  }

  lemma RetryAlive(s: State, start: nat, end: nat)
    ensures RecordRetry(s, start, end).terminated == s.terminated
  {
  }

  lemma RecoveringFacts(s: State)
    requires Inv(s) && s.loss.recovering
    ensures s.hs.completed && s.hs.started
  {
    hide Karn;
  }

  // ---------- Window reductions ----------

  /** A reduction is safe when its ACK has passed the guard of the earlier ones. */
  lemma ReduceKeeps(s: State, ack: nat, already: bool)
    requires !already ==> s.hs.completed && !s.terminated
    requires !already && Inv(s) ==> BoundariesBelow(s.log, ack)
    requires !already && !s.loss.ecn ==> s.space.next <= Guard(s.loss, s.space.una)
    ensures Inv(s) ==> Inv(ReduceOnce(s, ack, already))
  {
    hide OriginalsFresh, SamplesUnambiguous, SentBelow, ReductionsSpaced, BoundariesBelow, Unambiguous;
    if Inv(s) && !already {
      ReducedLog(s, ack);
    }
  }

  lemma ReducedLog(s: State, ack: nat)
    requires Inv(s) && s.hs.completed && BoundariesBelow(s.log, ack)
    ensures var longer := s.log + [Reduced(ack, s.space.next)];
      && Karn(Quiet(s.hs), s.space.next, s.probe, longer)
      && ReductionsSpaced(longer)
      && forall limit :: s.space.next <= limit ==> BoundariesBelow(longer, limit)
  {
    var e := Reduced(ack, s.space.next);
    ReducedKarn(false, s.space.next, s.probe, s.log, e);
    ReducedAppend(s.log, e, Min(ack, s.space.next), s.space.next);
  }

  lemma ReducedKarn(quiet: bool, next: nat, probe: Probe, log: seq<Entry>, e: Entry)
    requires Karn(quiet, next, probe, log) && !quiet && e.Reduced?
    ensures Karn(quiet, next, probe, log + [e])
  {
    FreshAppend(log, e, next);
    BelowAppend(log, e, next, next);
    SamplesAppend(log, e);
  }

  lemma BoundariesWithin(log: seq<Entry>, low: int, high: int)
    requires BoundariesBelow(log, low) && low <= high
    ensures BoundariesBelow(log, high)
  {
  }

  lemma DuplicateKeeps(s: State, c: Choices)
    requires !s.loss.sack
    ensures Inv(s) ==> Inv(DuplicateACK(s, c).0)
  {
    hide OriginalsFresh, SamplesUnambiguous, SentBelow, ReductionsSpaced, BoundariesBelow, Unambiguous;
    var counted := s.loss.(duplicates := s.loss.duplicates + 1);
    if Inv(s) && s.config.fastRetransmit && BytesInFlight(s) != 0 && s.loss.until == 0 {
      var guarded := s.(loss := counted.(until := s.space.next));
      var already := s.loss.ecn && s.space.una < s.loss.reductionEnd;
      if !already {
        BoundariesWithin(s.log, Guard(s.loss, s.space.una), s.space.una);
      }
      GuardedKeeps(s, guarded);
      ReduceKeeps(guarded, s.space.una, already);
    }
  }

  /** Moving a guard forward to the end of the flight. */
  lemma GuardedKeeps(s: State, guarded: State)
    requires guarded == s.(loss := guarded.loss) && !s.terminated && s.hs.completed
    requires guarded.loss.ecn == s.loss.ecn && guarded.loss.sack == s.loss.sack
    requires guarded.loss.reductionEnd == s.loss.reductionEnd
    requires guarded.loss.until == s.space.next
    requires s.loss.recoveryEnd <= guarded.loss.recoveryEnd <= s.space.next
    ensures Inv(s) ==> Inv(guarded)
  {
    hide Karn;
    if Inv(s) && s.loss.sack && !s.loss.ecn {
      BoundariesWithin(s.log, s.loss.recoveryEnd, guarded.loss.recoveryEnd);
    }
  }

  lemma ECNKeeps(s: State, p: Packet, c: Choices)
    requires !s.terminated && p.ackNo <= s.space.next
    ensures Inv(s) ==> Inv(ObserveECN(s, p, c))
  {
    hide OriginalsFresh, SamplesUnambiguous, SentBelow, ReductionsSpaced, BoundariesBelow, Unambiguous;
    if Inv(s) && s.loss.ecn && p.ackNo >= s.space.una {
      var already := s.loss.reductionEnd != 0 && p.ackNo <= s.loss.reductionEnd;
      if !already {
        BoundariesWithin(s.log, s.loss.reductionEnd, p.ackNo);
      }
      ReduceKeeps(s, p.ackNo, already);
    }
  }

  lemma EnterKeeps(s: State, c: Choices)
    requires s.loss.sack && !s.terminated && s.hs.completed && s.loss.recoveryEnd <= s.space.una
    ensures Inv(s) ==> Inv(EnterRecovery(s, c))
  {
    hide OriginalsFresh, SamplesUnambiguous, SentBelow, ReductionsSpaced, BoundariesBelow, Unambiguous;
    hide RepairHole;
    var already := s.loss.ecn && s.space.una < s.loss.reductionEnd;
    var entered := s.(loss := s.loss.(recovering := true, recoveryEnd := s.space.next, until := s.space.next));
    if Inv(s) {
      GuardedKeeps(s, entered);
      if !already {
        BoundariesWithin(s.log, Guard(s.loss, s.space.una), s.space.una);
      }
      ReduceKeeps(entered, s.space.una, already);
    }
    hide Inv, ReduceOnce;
    if c.hole.Some? {
      RepairKeeps(ReduceOnce(entered, s.space.una, already), c.hole.value);
    }
  }

  /** Counters that no guard depends on. */
  lemma CounterKeeps(s: State, duplicates: nat, sackDuplicates: nat)
    ensures Inv(s) ==> Inv(s.(loss := s.loss.(duplicates := duplicates, sackDuplicates := sackDuplicates)))
  {
    hide Karn, Accounting;
  }

  lemma ObserveSACKKeeps(s: State, c: Choices, advanced: bool)
    requires s.loss.sack
    ensures Inv(s) ==> Inv(ObserveSACK(s, c, advanced))
  {
    hide OriginalsFresh, SamplesUnambiguous, SentBelow, ReductionsSpaced, BoundariesBelow, Unambiguous;
    var before := if advanced then 0 else s.loss.sackDuplicates;
    CounterKeeps(s, s.loss.duplicates, before);
    CounterKeeps(s, before + 1, before + 1);
    hide EnterRecovery;
    var counted := s.(loss := s.loss.(sackDuplicates := before + 1, duplicates := before + 1));
    if Inv(s) && !s.terminated && s.space.pending != [] && !(s.space.una < s.loss.recoveryEnd) {
      EnterKeeps(counted, c);
    }
  }

  // ---------- Acknowledgements ----------

  lemma UpdateWindowKeeps(s: State, p: Packet)
    requires p.ackNo <= MAX_UINT64
    ensures Inv(s) ==> Inv(UpdateWindow(s, p))
  {
    hide Karn;
  }

  lemma ReleaseKeeps(s: State, ack: nat)
    requires s.hs.completed && !s.terminated && !s.conn.finSent && s.space.una <= ack <= s.space.next
    ensures Inv(s) ==> Inv(ReleaseBytes(s, ack))
  {
    hide Karn;
    if Inv(s) {
      SB.AcknowledgedTiles(s.space.pending, s.space.una, s.space.next, ack);
      SB.AcknowledgedStamped(s.space.pending, ack, s.space.peerInitial + 1, s.space.receive);
      if !s.loss.ecn && !s.loss.sack {
        BoundariesWithin(s.log, Guard(s.loss, s.space.una), Max(s.loss.until, ack));
      }
    }
  }

  lemma AcknowledgeDataKeeps(s: State, p: Packet, c: Choices)
    requires s.hs.completed && !s.terminated && !s.conn.finSent && s.space.una <= p.ackNo <= s.space.next
    ensures Inv(s) ==> Inv(AcknowledgeData(s, p, c))
  {
    ObserveRTTKeeps(s, p.ackNo);
    ObserveRTTFrame(s, p.ackNo);
    hide Inv, ObserveRTTACK, ReleaseBytes, FastRetransmitOldest, QueueSegment;
    var observed := ObserveRTTACK(s, p.ackNo);
    ReleaseKeeps(observed, p.ackNo);
    var moved := ReleaseBytes(observed, p.ackNo);
    RetransmitKeeps(moved, false);
    QueueKeeps(moved);
    QueueKeeps(FastRetransmitOldest(moved, false));
  }

  lemma RepeatedACKKeeps(s: State, p: Packet, c: Choices, windowUnchanged: bool)
    ensures Inv(s) ==> Inv(RepeatedACK(s, p, c, windowUnchanged))
  {
    hide Inv, DuplicateACK, FastRetransmitOldest, QueueSegment;
    if !s.loss.sack {
      DuplicateKeeps(s, c);
      var counted := DuplicateACK(s, c).0;
      RetransmitKeeps(counted, true);
      QueueKeeps(s);
      QueueKeeps(counted);
      QueueKeeps(FastRetransmitOldest(counted, true));
    }
  }

  lemma HandleDataACKKeeps(s: State, p: Packet, c: Choices)
    requires s.hs.completed && !s.terminated && !s.conn.finSent && p.ackNo <= s.space.next && p.ackNo <= MAX_UINT64
    ensures Inv(s) ==> Inv(HandleDataACK(s, p, c))
  {
    hide Inv, RepeatedACK, AcknowledgeData;
    UpdateWindowKeeps(s, p);
    RepeatedACKKeeps(UpdateWindow(s, p), p, c, p.window == s.space.peerWindow);
    if s.space.una <= p.ackNo {
      AcknowledgeDataKeeps(UpdateWindow(s, p), p, c);
    }
  }

  // ---------- Closing ----------

  lemma AcknowledgeFINKeeps(s: State, ack: nat)
    ensures Inv(s) ==> Inv(AcknowledgeFIN(s, ack))
  {
    hide OriginalsFresh, SamplesUnambiguous, SentBelow, ReductionsSpaced, BoundariesBelow, Unambiguous;
  }

  lemma ConsumeKeeps(s: State, end: nat, tcp: TCPState, requested: bool)
    requires s.hs.completed && !s.terminated && !s.conn.peerFIN && end == s.space.receive + 1
    requires requested && (s.conn.finSent ==> tcp == if s.conn.finAcked then TimeWait else Closing)
    requires !s.conn.finSent ==> tcp.CloseWait?
    ensures Inv(s) ==> Inv(ConsumeFIN(s, end, tcp, requested))
  {
    hide OriginalsFresh, SamplesUnambiguous, SentBelow, ReductionsSpaced, BoundariesBelow, Unambiguous;
  }

  lemma TimeWaitKeeps(s: State)
    requires s.conn.tcp.TimeWait?
    ensures Inv(s) ==> Inv(EnterTimeWait(s)) && Inv(EmitACK(EnterTimeWait(s)))
  {
    hide Karn, Reductions, SB.Tiles;
    EmitKeeps(EnterTimeWait(s), Segment(ACK_FLAGS, 0, s.space.next, s.space.receive));
  }

  lemma HandleFINKeeps(s: State, p: Packet, end: nat)
    requires s.hs.completed && !s.terminated && p.flags.fin && !p.flags.syn && SequenceEnd(p) == Some(end)
    ensures Inv(s) ==> Inv(HandleFIN(s, p, end))
  {
    hide OriginalsFresh, SamplesUnambiguous, SentBelow, ReductionsSpaced, BoundariesBelow, Unambiguous;
    hide Emit, Segment, QueueSegment, StartFIN, EnterTimeWait;
    EmitKeeps(s, Segment(ACK_FLAGS, 0, s.space.next, s.space.receive));
    if s.conn.tcp.TimeWait? {
      TimeWaitKeeps(s);
    }
    if Inv(s) && p.size == 0 && p.seqNo == s.space.receive && !s.conn.peerFIN {
      assert s.conn.finSent ==> s.conn.requested;
      var tcp := if !s.conn.finSent then CloseWait else if s.conn.finAcked then TimeWait else Closing;
      ConsumeKeeps(s, end, tcp, true);
      var consumed := ConsumeFIN(s, end, tcp, true);
      AfterConsume(consumed);
      if s.conn.finSent && s.conn.finAcked {
        TimeWaitKeeps(consumed);
      }
    }
  }

  lemma AfterConsume(consumed: State)
    requires Inv(consumed)
    ensures Inv(EmitACK(consumed)) && Inv(StartFIN(QueueSegment(EmitACK(consumed))))
  {
    hide Inv, Emit, Segment, QueueSegment, StartFIN;
    EmitKeeps(consumed, Segment(ACK_FLAGS, 0, consumed.space.next, consumed.space.receive));
    var queued := QueueSegment(EmitACK(consumed));
    QueueKeeps(EmitACK(consumed));
    RequestedFacts(queued);
    StartFINKeeps(queued);
  }

  lemma RequestedFacts(s: State)
    requires Inv(s)
    ensures s.conn.requested ==> s.hs.completed
  {
    hide OriginalsFresh, SamplesUnambiguous, SentBelow, ReductionsSpaced, BoundariesBelow, Unambiguous;
  }

  lemma FollowUpKeeps(s: State, repeatedFIN: bool, c: Choices, advanced: bool)
    ensures Inv(s) ==> Inv(FollowUp(s, repeatedFIN, c, advanced))
  {
    hide Inv, ObserveSACK, QueueSegment;
    if s.loss.sack {
      ObserveSACKKeeps(s, c, advanced);
      QueueKeeps(ObserveSACK(s, c, advanced));
    }
    QueueKeeps(s);
  }
}
