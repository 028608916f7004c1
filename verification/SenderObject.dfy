/** The sender as the source keeps it: fields updated in place, one method per operation, each
    proved equal to the function of the same name in `Sender`. */
module SenderObject {
  import opened Basics
  import opened Packets
  import SB = SendBuffer
  import S = Sender
  import SI = SenderSafety
  import SS = SenderSteps

  class Sender {
    const config: S.Config
    var terminated: bool
    var hs: S.Handshake
    var conn: S.Connection
    const pending: SB.Buffer
    var oldestRetries: nat
    var nextSendSeq: nat
    var oldestUnackedSeq: nat
    var receiveNext: nat
    var peerInitial: nat
    var peerWindowEnd: nat
    var peerWindow: nat
    var stream: S.Stream
    var probe: S.Probe
    var loss: S.Loss
    var timers: S.Timers
    var out: seq<Packet>
    var log: seq<S.Entry>

    /** The fields hold a value; the handlers below need no more, and keep it. */
    ghost predicate Coherent()
      reads this, pending
    {
      pending.Valid()
    }

    /** What holds between two inputs. */
    ghost predicate Valid()
      reads this, pending
    {
      Coherent() && SI.Inv(Value())
    }

    ghost function Value(): S.State
      reads this, pending
      requires Coherent()
    {
      S.State(config, terminated, hs, conn,
              S.Space(pending.Pending(), oldestRetries, nextSendSeq, oldestUnackedSeq, receiveNext, peerInitial, peerWindowEnd, peerWindow),
              stream, probe, loss, timers, out, log)
    }

    constructor (config: S.Config)
      ensures Valid() && fresh(pending) && Value() == S.Init(config)
    {
      this.config, terminated, hs := config, false, S.Handshake(false, false, false, 0);
      conn := S.Connection(Closed, NoOutcome, false, false, false, false, 0, 0);
      oldestRetries, nextSendSeq, oldestUnackedSeq, receiveNext := 0, 0, 0, 0;
      peerInitial, peerWindowEnd, peerWindow := 0, 0, 0;
      stream, probe := S.Stream(None, 0, 0, 0, false, S.InProgress), S.NO_PROBE;
      loss, timers := S.Loss(0, 0, false, 0, false, false, false, 0, 0), S.NO_TIMERS;
      out, log := [], [];
      pending := new SB.Buffer();
      new;
      SS.InitInv(config);
    }

    // ---------- Emission and shutdown ----------

    method Emit(p: Packet)
      requires Coherent()
      modifies this`out
      ensures Coherent() && Value() == S.Emit(old(Value()), p)
    {
      if !terminated {
        out := out + [p.(window := config.receiveWindow)];
      }
    }

    method Record(entry: S.Entry)
      requires Coherent()
      modifies this`log
      ensures Coherent() && Value() == S.Record(old(Value()), entry)
    {
      log := log + [entry];
    }

    method EmitACK()
      requires Coherent()
      modifies this`out
      ensures Coherent() && Value() == S.EmitACK(old(Value()))
    {
      Emit(Segment(ACK_FLAGS, 0, nextSendSeq, receiveNext));
    }

    method Shutdown()
      requires Coherent()
      modifies this, pending
      ensures Coherent() && Value() == S.Shutdown(old(Value()))
    {
      if terminated {
        return;
      }
      EndTransfer();
      DropPending();
      StopTimers();
    }

    method EndTransfer()
      requires Coherent()
      modifies this`terminated, this`hs, this`conn, this`stream
      ensures Coherent()
      ensures var was := old(Value()); Value() == was.(
        terminated := true, hs := was.hs.(synWaiting := false),
        stream := was.stream.(transfer := if was.stream.transfer.InProgress? then S.Failed else was.stream.transfer),
        conn := was.conn.(tcp := Closed, outcome := if was.conn.outcome.NoOutcome? then Aborted else was.conn.outcome))
    {
      terminated, hs := true, hs.(synWaiting := false);
      conn := conn.(tcp := Closed, outcome := if conn.outcome.NoOutcome? then Aborted else conn.outcome);
      if stream.transfer.InProgress? {
        stream := stream.(transfer := S.Failed);
      }
    }

    method StopTimers()
      requires Coherent()
      modifies this`loss, this`timers, this`probe
      ensures Coherent()
      ensures Value() == old(Value()).(loss := old(Value()).loss.(recovering := false, duplicates := 0, until := 0),
                                       timers := S.NO_TIMERS, probe := S.NO_PROBE)
    {
      loss := loss.(recovering := false, duplicates := 0, until := 0);
      timers, probe := S.NO_TIMERS, S.NO_PROBE;
    }

    method DropPending()
      requires Coherent()
      modifies this`oldestRetries, pending
      ensures Coherent()
      ensures Value() == old(Value()).(space := old(Value()).space.(pending := [], oldestRetries := 0))
    {
      pending.Reset();
      oldestRetries := 0;
    }

    method FinishConnection(outcome: CloseOutcome)
      requires Coherent()
      modifies this, pending
      ensures Coherent() && Value() == S.FinishConnection(old(Value()), outcome)
    {
      if terminated {
        return;
      }
      conn := conn.(outcome := outcome);
      Shutdown();
    }

    // ---------- RTT probe ----------

    method StartProbe(end: nat)
      requires Coherent()
      modifies this`probe
      ensures Coherent() && Value() == S.StartProbe(old(Value()), end)
    {
      if !probe.active && !probe.recovering {
        probe := probe.(active := true, sentAt := |log|, endSeq := end);
      }
    }

    method InvalidateProbe()
      requires Coherent()
      modifies this`probe
      ensures Coherent() && Value() == S.InvalidateProbe(old(Value()))
    {
      probe := probe.(active := false, recovering := true, recoveryUntil := nextSendSeq);
    }

    method ObserveRTTACK(ack: nat)
      requires Coherent()
      modifies this`probe, this`log
      ensures Coherent() && Value() == S.ObserveRTTACK(old(Value()), ack)
    {
      if probe.recovering {
        if ack >= probe.recoveryUntil {
          probe := probe.(recovering := false);
        }
        return;
      }
      if !probe.active || ack < probe.endSeq {
        return;
      }
      probe := probe.(active := false);
      Record(S.Sampled(probe.sentAt, ack));
    }

    // ---------- Handshake ----------

    method EstablishConnection()
      requires Coherent()
      modifies this
      ensures Coherent() && Value() == S.Establish(old(Value()))
    {
      if terminated || conn.requested || hs.started {
        return;
      }
      hs := hs.(started := true, synWaiting := true);
      conn := conn.(tcp := SynSent);
      nextSendSeq := 1;
    }

    method SendSyn()
      requires Coherent()
      modifies this`timers, this`probe, this`log, this`out
      ensures Coherent() && Value() == S.SendSyn(old(Value()))
    {
      var packet := Segment(NO_FLAGS.(syn := true, ece := config.ecnEnabled, cwr := config.ecnEnabled), 0, 0, 0)
        .(sackPermitted := config.sackEnabled);
      if hs.retries == 0 {
        StartProbe(1);
      }
      timers := timers.(syn := true);
      Record(S.Sent(0, 1, hs.retries > 0));
      Emit(packet);
    }

    method SynSend()
      requires Coherent()
      modifies this
      ensures Coherent() && Value() == S.SynSend(old(Value()))
    {
      if !hs.synWaiting {
        return;
      }
      hs := hs.(synWaiting := false);
      if !terminated && !conn.finSent && !hs.completed {
        SendSyn();
      }
    }

    method SynTimeout()
      requires Coherent()
      modifies this, pending
      ensures Coherent() && Value() == S.SynTimeout(old(Value()))
    {
      hide S.Shutdown, S.SendSyn, S.InvalidateProbe;
      if !timers.syn {
        return;
      }
      if terminated || conn.finSent || hs.completed {
        timers := timers.(syn := false);
        return;
      }
      if hs.retries >= MAX_RETRANSMISSIONS {
        Shutdown();
        return;
      }
      hs := hs.(retries := hs.retries + 1);
      InvalidateProbe();
      SendSyn();
    }

    method HandleSynAck(p: Packet, end: nat)
      requires Coherent()
      modifies this, pending
      ensures Coherent() && Value() == S.HandleSynAck(old(Value()), p, end)
    {
      if !hs.started || !p.flags.syn || !p.flags.ack || p.flags.psh || p.size != 0 || p.ackNo != 1 {
        return;
      }
      if hs.completed {
        if p.seqNo != peerInitial {
          return;
        }
        EmitACK();
        QueueSegment();
        return;
      }
      ObserveRTTACK(p.ackNo);
      OpenConnection(p, end);
      EmitACK();
      QueueSegment();
    }

    method OpenConnection(p: Packet, end: nat)
      requires Coherent()
      modifies this
      ensures Coherent() && Value() == S.OpenConnection(old(Value()), p, end)
    {
      OpenSpace(p, end);
      hs, conn, timers := hs.(completed := true, retries := 0), conn.(tcp := Established), timers.(syn := false);
      loss := loss.(sack := config.sackEnabled && p.sackPermitted, ecn := config.ecnEnabled && p.flags.ece && !p.flags.cwr);
    }

    method OpenSpace(p: Packet, end: nat)
      requires Coherent()
      modifies this`peerInitial, this`receiveNext, this`oldestUnackedSeq, this`peerWindowEnd, this`peerWindow
      ensures Coherent()
      ensures Value() == old(Value()).(space := old(Value()).space.(
        peerInitial := p.seqNo, receive := end, una := 1, windowEnd := S.ReceiveWindowEnd(1, p.window), peerWindow := p.window))
    {
      peerInitial, receiveNext, oldestUnackedSeq := p.seqNo, end, 1;
      peerWindowEnd, peerWindow := S.ReceiveWindowEnd(1, p.window), p.window;
    }

    // ---------- Stream ----------

    method SetSource(size: nat)
      requires Coherent()
      modifies this, pending
      ensures Coherent() && Value() == S.SetSource(old(Value()), size)
    {
      if terminated || conn.requested || stream.unsent.Some? {
        return;
      }
      stream := stream.(unsent := Some(size), size := size, remaining := size);
      if hs.completed {
        QueueSegment();
      }
    }

    method FinishStream()
      requires Coherent()
      modifies this
      ensures Coherent() && Value() == S.FinishStream(old(Value()))
    {
      stream := stream.(completed := true, transfer := S.Succeeded);
      conn := conn.(requested := true);
    }

    method QueueSegment()
      requires Coherent()
      modifies this, pending
      ensures Coherent() && Value() == S.QueueSegment(old(Value()))
    {
      if terminated || conn.finSent || !hs.completed || stream.unsent.None? {
        return;
      }
      if stream.remaining == 0 && !stream.completed {
        FinishStream();
        StartFIN();
      }
    }

    method Close()
      requires Coherent()
      modifies this, pending
      ensures Coherent() && Value() == S.Close(old(Value()))
    {
      if terminated {
        return;
      }
      if !hs.completed {
        Shutdown();
        return;
      }
      conn := conn.(requested := true);
      StartFIN();
      QueueSegment();
    }

    method TakePayload(size: nat)
      requires Coherent() && size <= S.Unsent(stream)
      modifies this`nextSendSeq, this`stream, pending
      ensures Coherent() && Value() == S.TakePayload(old(Value()), size)
    {
      pending.Append(SB.Segment(nextSendSeq, size, receiveNext));
      nextSendSeq := nextSendSeq + size;
      stream := stream.(unsent := Some(S.Unsent(stream) - size));
    }

    /** How much fresh payload both windows admit. */
    method NextPayloadSize(limit: Option<nat>, pipe: nat) returns (size: nat)
      requires Coherent()
      ensures size == S.NextPayloadSize(Value(), limit, pipe) <= S.Unsent(stream)
    {
      if peerWindowEnd <= nextSendSeq {
        return 0;
      }
      var flight := if loss.recovering then pipe else BytesInFlight();
      var room := MAX_INT64;
      if limit.Some? {
        room := Max(0, limit.value - flight);
      }
      if loss.recovering && room < config.mss {
        return 0;
      }
      size := Min(Min(S.Unsent(stream), config.mss), Min(peerWindowEnd - nextSendSeq, room));
    }

    function BytesInFlight(): int
      reads this
    {
      if !hs.completed || conn.finSent || terminated then 0 else nextSendSeq - oldestUnackedSeq
    }

    method SendNew(limit: Option<nat>, pipe: nat)
      requires Coherent()
      modifies this, pending
      ensures Coherent() && Value() == S.SendNew(old(Value()), limit, pipe)
    {
      hide S.QueueSegment, S.NextPayloadSize, SI.Marked, SI.NewPacket, S.Emit;
      if terminated || conn.finSent || !hs.completed || stream.unsent.None? {
        return;
      }
      var size := NextPayloadSize(limit, pipe);
      if size == 0 {
        return;
      }
      SI.SentAs(Value(), limit, pipe, size);
      SendPayload(size);
      QueueSegment();
    }

    /** One fresh segment: taken from the source, timed, logged, and carrying any pending CWR. */
    method SendPayload(size: nat)
      requires Coherent() && size <= S.Unsent(stream)
      modifies this, pending
      ensures Coherent() && Value() == S.Emit(SI.Marked(old(Value()), size), SI.NewPacket(old(Value()), size))
    {
      hide S.TakePayload, S.StartProbe, S.Record, S.Emit;
      var start, cwr := nextSendSeq, loss.ecn && loss.cwrPending;
      TakePayload(size);
      StartProbe(start + size);
      Record(S.Sent(start, start + size, false));
      loss, timers := loss.(cwrPending := loss.cwrPending && !loss.ecn), timers.(data := true);
      Emit(Segment(DATA_FLAGS.(cwr := cwr), size, start, receiveNext));
    }

    // ---------- Retransmission ----------

    method RecordReduction()
      requires Coherent()
      modifies this`loss
      ensures Coherent() && Value() == S.RecordReduction(old(Value()))
    {
      if loss.ecn {
        loss := loss.(reductionEnd := nextSendSeq, cwrPending := true);
      }
    }

    method RecordRetry(start: nat, end: nat)
      requires Coherent()
      modifies this`oldestRetries, this`probe, this`log
      ensures Coherent() && Value() == S.RecordRetry(old(Value()), start, end)
    {
      if start == oldestUnackedSeq {
        oldestRetries := oldestRetries + 1;
      }
      InvalidateProbe();
      Record(S.Sent(start, end, true));
    }

    method PrepareDataRetry() returns (packet: Option<Packet>)
      requires Coherent()
      modifies this, pending
      ensures Coherent() && (Value(), packet) == S.PrepareDataRetry(old(Value()))
    {
      if terminated || conn.finSent || !pending.HasPending() {
        return None;
      }
      if oldestRetries >= MAX_RETRANSMISSIONS {
        Shutdown();
        return None;
      }
      var oldest := pending.segments[pending.firstPendingIndex];
      RecordRetry(oldest.seqNo, oldest.seqNo + oldest.size);
      return Some(Segment(DATA_FLAGS, oldest.size, oldest.seqNo, oldest.ack));
    }

    method TimeoutLoss()
      requires Coherent()
      modifies this`loss
      ensures Coherent() && Value() == S.TimeoutLoss(old(Value()))
    {
      if loss.sack {
        loss := loss.(recovering := false, sackDuplicates := 0, recoveryEnd := nextSendSeq);
      }
      loss := loss.(duplicates := 0, until := nextSendSeq);
      RecordReduction();
    }

    method ArmData()
      requires Coherent()
      modifies this`timers
      ensures Coherent() && Value() == S.ArmData(old(Value()))
    {
      timers := timers.(data := true);
    }

    method RetransmitData()
      requires Coherent()
      modifies this, pending
      ensures Coherent() && Value() == S.RetransmitData(old(Value()))
    {
      if !timers.data {
        return;
      }
      var packet := PrepareDataRetry();
      if packet.None? {
        timers := timers.(data := false);
        return;
      }
      TimeoutLoss();
      ArmData();
      Emit(packet.value);
    }

    method FastRetransmitOldest(restart: bool)
      requires Coherent()
      modifies this, pending
      ensures Coherent() && Value() == S.FastRetransmitOldest(old(Value()), restart)
    {
      var packet := PrepareDataRetry();
      if packet.Some? {
        if restart {
          ArmData();
        }
        Emit(packet.value);
      }
    }

    method ReduceOnce(ack: nat, already: bool)
      requires Coherent()
      modifies this`loss, this`log
      ensures Coherent() && Value() == S.ReduceOnce(old(Value()), ack, already)
    {
      if !already {
        RecordReduction();
        Record(S.Reduced(ack, nextSendSeq));
      }
    }

    method DuplicateACK(c: S.Choices) returns (retry: bool)
      requires Coherent()
      modifies this`loss, this`log
      ensures Coherent() && (Value(), retry) == S.DuplicateACK(old(Value()), c)
    {
      if !config.fastRetransmit || BytesInFlight() == 0 {
        return false;
      }
      loss := loss.(duplicates := loss.duplicates + 1);
      if loss.until != 0 || loss.duplicates != 3 || c.suppressFast {
        return false;
      }
      var already := loss.ecn && oldestUnackedSeq < loss.reductionEnd;
      loss := loss.(until := nextSendSeq);
      ReduceOnce(oldestUnackedSeq, already);
      return true;
    }

    method RepairHole(hole: SACKBlock)
      requires Coherent()
      modifies this, pending
      ensures Coherent() && Value() == S.RepairHole(old(Value()), hole)
    {
      if terminated || conn.finSent || !loss.recovering {
        return;
      }
      if !(oldestUnackedSeq <= hole.start < hole.end <= nextSendSeq) {
        return;
      }
      if hole.start == oldestUnackedSeq && oldestRetries >= MAX_RETRANSMISSIONS {
        Shutdown();
        return;
      }
      RecordRetry(hole.start, hole.end);
      ArmData();
      Emit(Segment(DATA_FLAGS, hole.end - hole.start, hole.start, receiveNext));
    }

    method EnterRecovery(c: S.Choices)
      requires Coherent()
      modifies this, pending
      ensures Coherent() && Value() == S.EnterRecovery(old(Value()), c)
    {
      var already := loss.ecn && oldestUnackedSeq < loss.reductionEnd;
      loss := loss.(recovering := true, recoveryEnd := nextSendSeq, until := nextSendSeq);
      ReduceOnce(oldestUnackedSeq, already);
      if c.hole.Some? {
        RepairHole(c.hole.value);
      }
    }

    method ObserveSACK(c: S.Choices, advanced: bool)
      requires Coherent()
      modifies this, pending
      ensures Coherent() && Value() == S.ObserveSACK(old(Value()), c, advanced)
    {
      hide S.EnterRecovery;
      if terminated || !pending.HasPending() {
        return;
      }
      if advanced {
        loss := loss.(sackDuplicates := 0);
      }
      if loss.recovering || !c.newSACKInformation {
        return;
      }
      loss := loss.(sackDuplicates := loss.sackDuplicates + 1);
      loss := loss.(duplicates := loss.sackDuplicates);
      if oldestUnackedSeq < loss.recoveryEnd || !(loss.sackDuplicates >= 3 || c.boardLost) || c.suppressFast {
        return;
      }
      EnterRecovery(c);
    }

    // ---------- ACK side ----------

    method ObserveECN(p: Packet, c: S.Choices)
      requires Coherent()
      modifies this`loss, this`log
      ensures Coherent() && Value() == S.ObserveECN(old(Value()), p, c)
    {
      if !loss.ecn || p.ackNo < oldestUnackedSeq || !p.flags.ece {
        return;
      }
      if !pending.HasPending() && !(c.minimumWindow && S.Unsent(stream) > 0) {
        return;
      }
      ReduceOnce(p.ackNo, loss.reductionEnd != 0 && p.ackNo <= loss.reductionEnd);
    }

    method ReleaseBytes(ack: nat)
      requires Coherent() && ack >= oldestUnackedSeq
      modifies this, pending
      ensures Coherent() && Value() == S.ReleaseBytes(old(Value()), ack)
    {
      hide SB.Acknowledged;
      var bytes := ack - oldestUnackedSeq;
      ReleasePending(ack);
      stream := stream.(remaining := stream.remaining - bytes, acknowledged := stream.acknowledged + bytes);
      RelaxGuards(ack);
      timers := timers.(data := pending.HasPending());
    }

    /** Guards end with the flight they protect. */
    method RelaxGuards(ack: nat)
      requires Coherent()
      modifies this`loss
      ensures Coherent()
      ensures var was := old(Value()).loss; Value() == old(Value()).(loss := was.(
        recovering := was.recovering && ack < was.recoveryEnd, duplicates := 0, until := if ack >= was.until then 0 else was.until))
    {
      if ack >= loss.recoveryEnd {
        loss := loss.(recovering := false);
      }
      if ack >= loss.until {
        loss := loss.(until := 0);
      }
      loss := loss.(duplicates := 0);
    }

    method ReleasePending(ack: nat)
      requires Coherent()
      modifies this`oldestUnackedSeq, this`oldestRetries, pending
      ensures Coherent()
      ensures Value() == old(Value()).(space := old(Value()).space.(
        una := ack, pending := SB.Acknowledged(old(Value()).space.pending, ack), oldestRetries := 0))
    {
      hide SB.Acknowledged;
      oldestUnackedSeq, oldestRetries := ack, 0;
      pending.Acknowledge(ack);
    }

    method AcknowledgeData(p: Packet, c: S.Choices)
      requires Coherent() && p.ackNo >= oldestUnackedSeq
      modifies this, pending
      ensures Coherent() && Value() == S.AcknowledgeData(old(Value()), p, c)
    {
      var sack := loss.sack;
      ObserveRTTACK(p.ackNo);
      ReleaseBytes(p.ackNo);
      if c.retransmitOldest {
        FastRetransmitOldest(false);
      }
      if !sack && !p.flags.fin {
        QueueSegment();
      }
    }

    method RepeatedACK(p: Packet, c: S.Choices, windowUnchanged: bool)
      requires Coherent()
      modifies this, pending
      ensures Coherent() && Value() == S.RepeatedACK(old(Value()), p, c, windowUnchanged)
    {
      if loss.sack {
        return;
      }
      if !p.flags.fin && windowUnchanged && pending.HasPending() {
        var retry := DuplicateACK(c);
        if retry {
          FastRetransmitOldest(true);
        }
      }
      if !p.flags.fin {
        QueueSegment();
      }
    }

    method HandleDataACK(p: Packet, c: S.Choices)
      requires Coherent() && p.ackNo <= MAX_UINT64
      modifies this, pending
      ensures Coherent() && Value() == S.HandleDataACK(old(Value()), p, c)
    {
      if p.ackNo < oldestUnackedSeq {
        return;
      }
      var windowUnchanged := p.window == peerWindow;
      peerWindowEnd, peerWindow := S.ReceiveWindowEnd(p.ackNo, p.window), p.window;
      if p.ackNo == oldestUnackedSeq {
        RepeatedACK(p, c, windowUnchanged);
        return;
      }
      if pending.HasPending() {
        AcknowledgeData(p, c);
      }
    }

    // ---------- Closing ----------

    method StartFIN()
      requires Coherent()
      modifies this
      ensures Coherent() && Value() == S.StartFIN(old(Value()))
    {
      if terminated || conn.finSent || !conn.requested || S.Unsent(stream) != 0 || pending.HasPending() {
        return;
      }
      conn := conn.(finSent := true, finSeq := nextSendSeq, tcp := if conn.peerFIN then LastAck else FinWait1);
      nextSendSeq := nextSendSeq + 1;
      timers := timers.(data := false, finStart := true);
      loss := loss.(duplicates := 0, until := 0);
    }

    method EmitFIN()
      requires Coherent()
      modifies this`out
      ensures Coherent() && Value() == S.EmitFIN(old(Value()))
    {
      Emit(Segment(FIN_FLAGS, 0, conn.finSeq, receiveNext));
    }

    method FinSend()
      requires Coherent()
      modifies this`timers, this`out
      ensures Coherent() && Value() == S.FinSend(old(Value()))
    {
      if !timers.finStart {
        return;
      }
      timers := timers.(finStart := false);
      if conn.finAcked || terminated {
        return;
      }
      timers := timers.(fin := true);
      EmitFIN();
    }

    method RetryFIN()
      requires Coherent()
      modifies this, pending
      ensures Coherent() && Value() == S.RetryFIN(old(Value()))
    {
      if !timers.fin {
        return;
      }
      if conn.finAcked || terminated {
        timers := timers.(fin := false);
        return;
      }
      if conn.finRetries >= config.maxFINRetries {
        FinishConnection(FINRetryLimit);
        return;
      }
      conn := conn.(finRetries := conn.finRetries + 1);
      EmitFIN();
    }

    method AcknowledgeFIN(ack: nat)
      requires Coherent()
      modifies this, pending
      ensures Coherent() && Value() == S.AcknowledgeFIN(old(Value()), ack)
    {
      if !conn.finSent || conn.finAcked || ack != conn.finSeq + 1 {
        return;
      }
      conn, timers := conn.(finAcked := true), timers.(fin := false);
      if conn.tcp.LastAck? {
        FinishConnection(Graceful);
      } else if conn.tcp.FinWait1? || conn.tcp.Closing? {
        if conn.peerFIN {
          EnterTimeWait();
        } else {
          conn, timers := conn.(tcp := FinWait2), timers.(wait := true);
        }
      }
    }

    method EnterTimeWait()
      requires Coherent()
      modifies this`conn, this`timers
      ensures Coherent() && Value() == S.EnterTimeWait(old(Value()))
    {
      conn, timers := conn.(tcp := TimeWait), timers.(fin := false, wait := true);
    }

    method ConsumeFIN(end: nat, tcp: TCPState, requested: bool)
      requires Coherent()
      modifies this`conn, this`receiveNext
      ensures Coherent() && Value() == S.ConsumeFIN(old(Value()), end, tcp, requested)
    {
      conn := conn.(peerFIN := true, tcp := tcp, requested := requested);
      receiveNext := end;
    }

    method HandleFIN(p: Packet, end: nat)
      requires Coherent()
      modifies this, pending
      ensures Coherent() && Value() == S.HandleFIN(old(Value()), p, end)
    {
      if p.size != 0 || !p.flags.ack || p.ackNo > nextSendSeq {
        return;
      }
      if conn.peerFIN {
        if end == receiveNext {
          if conn.tcp.TimeWait? {
            EnterTimeWait();
          }
          EmitACK();
        }
        return;
      }
      if p.seqNo != receiveNext {
        return;
      }
      if conn.finSent {
        ConsumeFIN(end, if conn.finAcked then TimeWait else Closing, conn.requested);
        if conn.finAcked {
          EnterTimeWait();
        }
        EmitACK();
        return;
      }
      ConsumeFIN(end, CloseWait, true);
      EmitACK();
      QueueSegment();
      StartFIN();
    }

    method HandleReset(p: Packet)
      requires Coherent()
      modifies this, pending
      ensures Coherent() && Value() == S.HandleReset(old(Value()), p)
    {
      if p.size != 0 || p.flags.syn || p.flags.fin || p.flags.psh {
        return;
      }
      if !hs.completed {
        if !hs.started || !p.flags.ack || p.ackNo != nextSendSeq {
          return;
        }
      } else {
        if p.seqNo != receiveNext {
          return;
        }
        if p.flags.ack && (p.ackNo < 1 || p.ackNo > nextSendSeq) {
          return;
        }
      }
      FinishConnection(Reset);
    }

    method WaitExpired()
      requires Coherent()
      modifies this, pending
      ensures Coherent() && Value() == S.WaitExpired(old(Value()))
    {
      if timers.wait {
        FinishConnection(if conn.tcp.TimeWait? then Graceful else WaitTimeout);
      }
    }

    // ---------- One arriving packet ----------

    method HandlePacket(p: Packet, c: S.Choices)
      requires Coherent()
      modifies this, pending
      ensures Coherent() && Value() == S.HandlePacket(old(Value()), p, c)
    {
      var end := SequenceEnd(p);
      if terminated || !ValidSACKOptions(p) || end.None? || (p.flags.syn && p.flags.fin) {
        return;
      }
      if p.flags.fin && (p.size != 0 || p.flags.psh) {
        return;
      }
      if p.flags.rst {
        HandleReset(p);
        return;
      }
      if p.flags.syn {
        if !conn.finSent {
          HandleSynAck(p, end.value);
        }
        return;
      }
      if hs.completed && p.flags.ack && p.size == 0 && 1 <= p.ackNo <= nextSendSeq && p.ackNo <= MAX_UINT64 {
        HandleACK(p, end.value, c);
      }
    }

    method HandleACK(p: Packet, end: nat, c: S.Choices)
      requires Coherent() && p.ackNo <= MAX_UINT64
      modifies this, pending
      ensures Coherent() && Value() == S.HandleACK(old(Value()), p, end, c)
    {
      hide S.ObserveECN, S.AcknowledgeFIN, S.HandleDataACK, S.HandleFIN, S.FollowUp;
      var repeatedFIN := p.flags.fin && conn.peerFIN && end == receiveNext;
      if p.seqNo != receiveNext && !repeatedFIN {
        return;
      }
      var previousUnacked, finSent := oldestUnackedSeq, conn.finSent;
      ObserveECN(p, c);
      if finSent {
        AcknowledgeFIN(p.ackNo);
      } else {
        HandleDataACK(p, c);
      }
      if p.flags.fin && !terminated {
        HandleFIN(p, end);
      }
      if finSent || oldestUnackedSeq != Max(previousUnacked, p.ackNo) {
        return;
      }
      FollowUp(repeatedFIN, c, p.ackNo > previousUnacked);
    }

    method FollowUp(repeatedFIN: bool, c: S.Choices, advanced: bool)
      requires Coherent()
      modifies this, pending
      ensures Coherent() && Value() == S.FollowUp(old(Value()), repeatedFIN, c, advanced)
    {
      var sack := loss.sack;
      if sack {
        ObserveSACK(c, advanced);
      }
      if sack || repeatedFIN {
        QueueSegment();
      }
    }

    // ---------- Whole runs ----------

    /** One input, by the handler the event loop calls for it. */
    method Handle(i: S.Input)
      requires Coherent()
      modifies this, pending
      ensures Coherent() && Value() == S.Step(old(Value()), i)
    {
      match i
      case DoEstablish => EstablishConnection();
      case DoSetSource(size) => if size <= MAX_INT64 { SetSource(size); }
      case DoClose => Close();
      case DoShutdown => Shutdown();
      case SynSendFires => SynSend();
      case SynTimerFires => SynTimeout();
      case SendFires(limit, pipe) => SendNew(limit, pipe);
      case DataTimerFires => RetransmitData();
      case Repair(hole) => RepairHole(hole);
      case FinSendFires => FinSend();
      case FinTimerFires => RetryFIN();
      case WaitTimerFires => WaitExpired();
      case Arrives(p, c) => HandlePacket(p, c);
    }

    /** Any input keeps the invariant, and teaches or emits only what `SenderSteps` allows. */
    method Perform(i: S.Input)
      requires Valid()
      modifies this, pending
      ensures Valid() && Value() == S.Step(old(Value()), i)
      ensures if i.Arrives? then SS.Learns(old(Value()), Value(), i.packet) else SS.Local(old(Value()), Value())
    {
      hide S.Step, SI.Inv, SS.Learns, SS.Local;
      SS.StepCorrect(Value(), i);
      Handle(i);
    }

    /** Any sequence of inputs to a new sender: it ends in the run's state, and what is
        confirmed, in flight and unsent adds up to the stream. */
    method Play(inputs: seq<S.Input>)
      requires Valid() && Value() == S.Init(config)
      modifies this, pending
      ensures Valid() && Value() == S.Run(config, inputs)
      ensures stream.acknowledged + stream.remaining == stream.size
      ensures hs.completed && !terminated ==>
                SB.Tiles(pending.Pending(), oldestUnackedSeq, SI.DataEnd(conn, Value().space))
      ensures conn.outcome.Graceful? ==> conn.finAcked && conn.peerFIN && stream.acknowledged == stream.size
    {
      hide S.Step, S.Init, SI.Inv, SS.Learns, SS.Local, SI.ClosingAgrees;
      for k := 0 to |inputs|
        invariant Valid() && Value() == S.Run(config, inputs[..k])
      {
        assert inputs[..k + 1][..k] == inputs[..k];
        Perform(inputs[k]);
      }
      assert inputs[..|inputs|] == inputs;
      SS.RunAccounting(config, inputs);
      SS.RunStateAgrees(config, inputs);
    }
  }
}
