/** The receiving end as the source keeps it: fields updated in place, one method per operation,
    each proved equal to the function of the same name in `Receiver`. */
module ReceiverObject {
  import opened Basics
  import opened Packets
  import RB = ReceiveBuffer
  import SR = SackReport
  import R = Receiver
  import RI = ReceiverSafety

  lemma BufferValid(s: R.State)
    requires RI.Inv(s)
    ensures RB.Valid(s.buffer)
  {
    hide RI.AllHonest;
  }

  class ReceiveConnection {
    const config: R.Config
    var phase: R.Phase
    var conn: R.Connection
    const receiver: RB.Buffer
    const report: SR.Reporter
    var sackPermitted: bool
    var ecnNegotiated: bool
    var ecnEcho: bool
    var pendingACKSegments: nat
    var timers: R.Timers
    var receivedBytes: int
    var activeConnections: int
    var halfOpenConnections: int
    var out: seq<Packet>

    /** The fields hold a value. */
    ghost predicate Coherent()
      reads this, receiver, report
    {
      report.Valid() && receiver.capacity == config.capacity
    }

    /** What holds between two inputs. */
    ghost predicate Valid()
      reads this, receiver, report, report.sackRecent
    {
      Coherent() && RI.Inv(Value())
    }

    ghost function Value(): R.State
      reads this, receiver, report, report.sackRecent
      requires Coherent()
    {
      R.State(config, phase, conn, receiver.Value(),
              R.Feedback(sackPermitted, report.Current(), ecnNegotiated, ecnEcho, pendingACKSegments),
              timers, receivedBytes, activeConnections, halfOpenConnections, out)
    }

    constructor (config: R.Config)
      requires R.ValidConfig(config)
      ensures Valid() && fresh(receiver) && fresh(report) && fresh(report.sackRecent)
      ensures Value() == R.Init(config)
    {
      this.config, phase := config, R.Listening;
      conn := R.Connection(false, Closed, NoOutcome, 0, 0, false, false, 0, 0, 0, false, 0, false, 0);
      sackPermitted, ecnNegotiated, ecnEcho, pendingACKSegments, timers := false, false, false, 0, R.NO_TIMERS;
      receivedBytes, activeConnections, halfOpenConnections, out := 0, 0, 0, [];
      receiver := new RB.Buffer(0, config.capacity);
      report := new SR.Reporter();
      new;
      RI.InitInv(config);
    }

    // ---------- Emission ----------

    method Emit(p: Packet)
      requires Coherent()
      modifies this`out
      ensures Coherent() && Value() == R.Emit(old(Value()), p)
    {
      out := out + [p];
    }

    /** The current cumulative ACK, window, SACK blocks and echo. */
    method Reply(flags: Flags, seqNo: nat) returns (p: Packet)
      requires Coherent()
      ensures p == R.Reply(Value(), flags, seqNo)
    {
      p := Segment(flags.(ece := ecnNegotiated && ecnEcho), 0, seqNo, receiver.nextExpectedSeq)
        .(window := RB.WindowBytes(receiver.Value()), sackBlocks := report.Current());
    }

    method CancelDelay()
      requires Coherent()
      modifies this`pendingACKSegments, this`timers
      ensures Coherent() && Value() == R.CancelDelay(old(Value()))
    {
      pendingACKSegments, timers := 0, timers.(ack := false);
    }

    method Acknowledge()
      requires Coherent()
      modifies this`out, this`pendingACKSegments, this`timers
      ensures Coherent() && Value() == R.Acknowledge(old(Value()))
    {
      if !phase.Open? {
        return;
      }
      CancelDelay();
      var p := Reply(ACK_FLAGS, conn.next);
      Emit(p);
    }

    method AcknowledgeData(mayDelay: bool)
      requires Coherent()
      modifies this`out, this`pendingACKSegments, this`timers
      ensures Coherent() && Value() == R.AcknowledgeData(old(Value()), mayDelay)
    {
      if !config.delayACK || !mayDelay || !conn.tcp.Established? || conn.pendingFIN {
        Acknowledge();
        return;
      }
      pendingACKSegments := pendingACKSegments + 1;
      if pendingACKSegments >= config.segmentsPerACK {
        Acknowledge();
        return;
      }
      if pendingACKSegments == 1 {
        timers := timers.(ack := true);
      }
    }

    method DelayExpired()
      requires Coherent()
      modifies this`out, this`pendingACKSegments, this`timers
      ensures Coherent() && Value() == R.DelayExpired(old(Value()))
    {
      if timers.ack && pendingACKSegments != 0 {
        Acknowledge();
      }
    }

    method EmitFIN()
      requires Coherent()
      modifies this`out, this`pendingACKSegments, this`timers
      ensures Coherent() && Value() == R.EmitFIN(old(Value()))
    {
      CancelDelay();
      var p := Reply(FIN_FLAGS, conn.finSeq);
      Emit(p);
    }

    // ---------- Opening and releasing ----------

    method Finish(outcome: CloseOutcome)
      requires Coherent()
      modifies this
      ensures Coherent() && Value() == R.Finish(old(Value()), outcome)
    {
      if !phase.Open? {
        return;
      }
      phase := R.Released;
      conn := conn.(tcp := Closed, outcome := outcome);
      pendingACKSegments, timers := 0, R.NO_TIMERS;
      if conn.established {
        if activeConnections > 0 {
          activeConnections := activeConnections - 1;
        }
      } else if halfOpenConnections > 0 {
        halfOpenConnections := halfOpenConnections - 1;
      }
    }

    method OpenSlot(p: Packet, end: nat)
      requires Coherent()
      modifies this, receiver, report
      ensures Coherent() && report.sackRecent == old(report.sackRecent) && Value() == R.OpenSlot(old(Value()), p, end)
    {
      phase := R.Open;
      conn := conn.(tcp := SynReceived, peerInitial := p.seqNo, next := 1);
      ResetBuffer(end);
      Negotiate(p);
      halfOpenConnections := halfOpenConnections + 1;
    }

    /** The options agreed with the first SYN. */
    method Negotiate(p: Packet)
      requires Coherent()
      modifies this`sackPermitted, this`ecnNegotiated, this`ecnEcho, this`pendingACKSegments, this`timers
      ensures Coherent()
      ensures Value() == old(Value()).(feedback := R.Feedback(
        config.sackEnabled && p.sackPermitted, old(Value()).feedback.recent, config.ecnEnabled && p.flags.ece && p.flags.cwr, false, 0),
                                       timers := R.NO_TIMERS)
    {
      sackPermitted := config.sackEnabled && p.sackPermitted;
      ecnNegotiated := config.ecnEnabled && p.flags.ece && p.flags.cwr;
      ecnEcho, pendingACKSegments, timers := false, 0, R.NO_TIMERS;
    }

    method ResetBuffer(next: nat)
      requires Coherent()
      modifies receiver, report
      ensures Coherent() && report.sackRecent == old(report.sackRecent)
      ensures Value() == old(Value()).(buffer := RB.View(next, config.capacity, 0, []), feedback := old(Value()).feedback.(recent := []))
    {
      receiver.nextExpectedSeq, receiver.bufferedBytes, receiver.ranges := next, 0, [];
      report.sackRecentCount := 0;
    }

    method HandleSYN(p: Packet, end: nat, canOpen: bool)
      requires Coherent()
      modifies this, receiver, report
      ensures Coherent() && Value() == R.HandleSYN(old(Value()), p, end, canOpen)
    {
      if p.size != 0 || p.flags.ack || phase.Released? {
        return;
      }
      if phase.Listening? {
        if !canOpen {
          return;
        }
        OpenSlot(p, end);
      }
      if p.seqNo != conn.peerInitial || conn.finSent {
        return;
      }
      Emit(Segment(NO_FLAGS.(syn := true, ack := true, ece := ecnNegotiated), 0, 0, conn.peerInitial + 1)
           .(window := RB.WindowBytes(receiver.Value()), sackPermitted := sackPermitted));
    }

    method EstablishConnection(canEstablish: bool) returns (ok: bool)
      requires Coherent()
      modifies this
      ensures Coherent() && (Value(), ok) == R.EstablishConnection(old(Value()), canEstablish)
    {
      if !canEstablish {
        Finish(Aborted);
        return false;
      }
      conn := conn.(established := true, tcp := Established);
      if halfOpenConnections > 0 {
        halfOpenConnections := halfOpenConnections - 1;
      }
      activeConnections := activeConnections + 1;
      return true;
    }

    method HandleReset(p: Packet)
      requires Coherent()
      modifies this
      ensures Coherent() && Value() == R.HandleReset(old(Value()), p)
    {
      if !phase.Open? || p.size != 0 || p.flags.syn || p.flags.fin || p.flags.psh || p.seqNo != receiver.nextExpectedSeq {
        return;
      }
      if p.flags.ack && !(1 <= p.ackNo <= conn.next) {
        return;
      }
      if conn.tcp.SynReceived? && (!p.flags.ack || p.ackNo != conn.next) {
        return;
      }
      Finish(Reset);
    }

    method ObserveECN(p: Packet)
      requires Coherent()
      modifies this`ecnEcho
      ensures Coherent() && Value() == R.ObserveECN(old(Value()), p)
    {
      if !ecnNegotiated {
        return;
      }
      if p.flags.cwr {
        ecnEcho := false;
      }
      if p.size > 0 && p.ce {
        ecnEcho := true;
      }
    }

    // ---------- Closing ----------

    method StartFIN(tcp: TCPState)
      requires Coherent()
      modifies this
      ensures Coherent() && Value() == R.StartFIN(old(Value()), tcp)
    {
      conn := conn.(tcp := tcp, finSent := true, finSeq := conn.next, next := conn.next + 1);
      timers := timers.(fin := true);
      EmitFIN();
    }

    method CloseConnection()
      requires Coherent()
      modifies this
      ensures Coherent() && Value() == R.CloseConnection(old(Value()))
    {
      if phase.Open? && conn.established && conn.tcp.Established? {
        StartFIN(FinWait1);
      }
    }

    method AbortConnection()
      requires Coherent()
      modifies this
      ensures Coherent() && Value() == R.AbortConnection(old(Value()))
    {
      if !phase.Open? {
        return;
      }
      var reset := Segment(ACK_FLAGS.(rst := true), 0, conn.next, receiver.nextExpectedSeq);
      Finish(Aborted);
      Emit(reset);
    }

    method AcknowledgeFIN(ack: nat) returns (open: bool)
      requires Coherent()
      modifies this
      ensures Coherent() && (Value(), open) == R.AcknowledgeFIN(old(Value()), ack)
    {
      if !conn.finSent || conn.finAcked || ack != conn.next {
        return true;
      }
      conn, timers := conn.(finAcked := true), timers.(fin := false);
      match conn.tcp {
        case FinWait1 => conn, timers := conn.(tcp := FinWait2), timers.(wait := true);
        case Closing => EnterTimeWait();
        case LastAck =>
          Finish(Graceful);
          return false;
        case _ =>
      }
      return true;
    }

    method EnterTimeWait()
      requires Coherent()
      modifies this
      ensures Coherent() && Value() == R.EnterTimeWait(old(Value()))
    {
      conn, timers := conn.(tcp := TimeWait), R.Timers(false, false, true);
      pendingACKSegments := 0;
    }

    /** Runs once every byte before the FIN has been received. */
    method ConsumeFIN(sequence: nat)
      requires Coherent()
      modifies this, receiver
      ensures Coherent() && Value() == R.ConsumeFIN(old(Value()), sequence)
    {
      conn := conn.(pendingFIN := false, peerFIN := true, peerFINSeq := sequence);
      receiver.nextExpectedSeq := receiver.nextExpectedSeq + 1;
      match conn.tcp {
        case Established =>
          StartFIN(LastAck);
          return;
        case FinWait1 => conn := conn.(tcp := Closing);
        case FinWait2 => EnterTimeWait();
        case _ =>
      }
      Acknowledge();
    }

    method RepeatedFIN(p: Packet)
      requires Coherent()
      modifies this
      ensures Coherent() && Value() == R.RepeatedFIN(old(Value()), p)
    {
      if p.seqNo != conn.peerFINSeq {
        return;
      }
      var open := AcknowledgeFIN(p.ackNo);
      if !open {
        return;
      }
      ObserveECN(p);
      if conn.tcp.TimeWait? {
        EnterTimeWait();
      }
      if conn.tcp.LastAck? {
        conn := conn.(finRetries := conn.finRetries + 1);
        EmitFIN();
      } else {
        Acknowledge();
      }
    }

    /** Whether a FIN at this position ends the stream received so far. */
    method FINFits(p: Packet) returns (fits: bool)
      requires Coherent()
      ensures fits == R.FINFits(Value(), p)
    {
      if p.seqNo < receiver.nextExpectedSeq || p.seqNo >= receiver.nextExpectedSeq + RB.WindowBytes(receiver.Value()) {
        return false;
      }
      if conn.pendingFIN && p.seqNo != conn.pendingFINSeq {
        return false;
      }
      for k := 0 to |receiver.ranges|
        invariant forall i :: 0 <= i < k ==> receiver.ranges[i].end <= p.seqNo
      {
        if receiver.ranges[k].end > p.seqNo {
          return false;
        }
      }
      return true;
    }

    method HandleFIN(p: Packet, canEstablish: bool)
      requires Coherent()
      modifies this, receiver
      ensures Coherent() && Value() == R.HandleFIN(old(Value()), p, canEstablish)
    {
      if p.size != 0 || p.flags.psh {
        return;
      }
      if conn.peerFIN {
        RepeatedFIN(p);
        return;
      }
      var fits := FINFits(p);
      if !fits {
        return;
      }
      if !conn.established {
        var ok := EstablishConnection(canEstablish);
        if !ok {
          return;
        }
      }
      AcceptFIN(p);
    }

    /** A FIN at a new position: remembered behind a gap, consumed without one. */
    method AcceptFIN(p: Packet)
      requires Coherent()
      modifies this, receiver
      ensures Coherent()
      ensures Value() ==
        var (acked, open) := R.AcknowledgeFIN(old(Value()), p.ackNo);
        if !open then acked else
          var marked := R.ObserveECN(acked, p);
          if p.seqNo != old(receiver.nextExpectedSeq) then
            R.Acknowledge(marked.(conn := marked.conn.(pendingFIN := true, pendingFINSeq := p.seqNo)))
          else R.ConsumeFIN(marked, p.seqNo)
    {
      var open := AcknowledgeFIN(p.ackNo);
      if !open {
        return;
      }
      ObserveECN(p);
      if p.seqNo != receiver.nextExpectedSeq {
        conn := conn.(pendingFIN := true, pendingFINSeq := p.seqNo);
        Acknowledge();
        return;
      }
      ConsumeFIN(p.seqNo);
    }

    method FinTimeout()
      requires Coherent()
      modifies this
      ensures Coherent() && Value() == R.FinTimeout(old(Value()))
    {
      if !timers.fin {
        return;
      }
      if !phase.Open? || conn.finAcked {
        timers := timers.(fin := false);
        return;
      }
      if conn.finTimeouts >= config.maxFINRetries {
        Finish(FINRetryLimit);
        return;
      }
      conn := conn.(finTimeouts := conn.finTimeouts + 1, finRetries := conn.finRetries + 1);
      EmitFIN();
    }

    method WaitExpired()
      requires Coherent()
      modifies this
      ensures Coherent() && Value() == R.WaitExpired(old(Value()))
    {
      if timers.wait {
        Finish(if conn.tcp.TimeWait? then Graceful else WaitTimeout);
      }
    }

    // ---------- Data ----------

    method TakeData(p: Packet, end: nat) returns (added: int)
      requires Coherent() && RB.Valid(receiver.Value())
      modifies this, receiver, report
      ensures Coherent() && (Value(), added) == R.TakeData(old(Value()), p, end)
    {
      var bound := end;
      if conn.pendingFIN {
        bound := Min(bound, conn.pendingFINSeq);
      }
      added := receiver.Accept(p.seqNo, bound);
      if sackPermitted {
        report.RecordArrival(receiver.ranges, p.seqNo, bound);
      }
      receivedBytes := receivedBytes + added;
    }

    method HandleData(p: Packet, end: nat)
      requires Coherent() && RB.Valid(receiver.Value())
      modifies this, receiver, report
      ensures Coherent() && Value() == R.HandleData(old(Value()), p, end)
    {
      var windowBefore := RB.WindowBytes(receiver.Value());
      var mayDelay := p.seqNo == receiver.nextExpectedSeq && |receiver.ranges| == 0;
      var newFeedback := ecnNegotiated && p.ce && (!ecnEcho || p.flags.cwr);
      if RB.OverlapsWindow(receiver.Value(), p.seqNo, end) {
        var open := AcknowledgeFIN(p.ackNo);
        if !open {
          return;
        }
        ObserveECN(p);
      }
      var added := TakeData(p, end);
      if conn.pendingFIN && receiver.nextExpectedSeq == conn.pendingFINSeq {
        ConsumeFIN(conn.pendingFINSeq);
        return;
      }
      mayDelay := mayDelay && added == p.size && windowBefore == RB.WindowBytes(receiver.Value()) && !newFeedback;
      AcknowledgeData(mayDelay);
    }

    // ---------- One arriving packet ----------

    method HandlePacket(p: Packet, a: R.Admission)
      requires Coherent() && RB.Valid(receiver.Value())
      modifies this, receiver, report
      ensures Coherent() && Value() == R.HandlePacket(old(Value()), p, a)
    {
      var end := SequenceEnd(p);
      if end.None? || !ValidSACKOptions(p) || (p.flags.syn && p.flags.fin) {
        return;
      }
      if p.flags.rst {
        HandleReset(p);
        return;
      }
      if p.flags.syn {
        HandleSYN(p, end.value, a.canOpen);
        return;
      }
      if !phase.Open? || !p.flags.ack || !(1 <= p.ackNo <= conn.next) {
        return;
      }
      if p.flags.fin {
        HandleFIN(p, a.canEstablish);
        return;
      }
      if !conn.established {
        var validSequence := p.seqNo == receiver.nextExpectedSeq;
        if p.size > 0 {
          validSequence := RB.OverlapsWindow(receiver.Value(), p.seqNo, end.value);
        }
        if !validSequence {
          return;
        }
        var ok := EstablishConnection(a.canEstablish);
        if !ok {
          return;
        }
      }
      HandleSegment(p, end.value);
    }

    method HandleSegment(p: Packet, end: nat)
      requires Coherent() && RB.Valid(receiver.Value())
      modifies this, receiver, report
      ensures Coherent() && Value() == R.HandleSegment(old(Value()), p, end)
    {
      if p.size == 0 {
        if p.seqNo == receiver.nextExpectedSeq {
          var open := AcknowledgeFIN(p.ackNo);
          if open {
            ObserveECN(p);
          }
        }
        return;
      }
      if !conn.peerFIN {
        HandleData(p, end);
      }
    }

    // ---------- Whole runs ----------

    /** Any input keeps the invariant and moves nothing the receiver knows back. */
    method Perform(i: R.Input)
      requires Valid()
      modifies this, receiver, report
      ensures Valid() && Value() == R.Step(old(Value()), i) && RI.Later(old(Value()), Value())
    {
      RI.StepKeeps(Value(), i);
      BufferValid(Value());
      hide RI.Inv, RI.Later;
      match i
      case DoClose => CloseConnection();
      case DoAbort => AbortConnection();
      case DoForget => Finish(Aborted);
      case DelayFires => DelayExpired();
      case FinTimerFires => FinTimeout();
      case WaitTimerFires => WaitExpired();
      case Arrives(p, a) => HandlePacket(p, a);
    }

    /** Any sequence of inputs to a new receiver: it ends in the run's state, with every payload
        position counted once. */
    method Play(inputs: seq<R.Input>)
      requires R.ValidConfig(config) && Valid() && Value() == R.Init(config)
      modifies this, receiver, report
      ensures Valid() && Value() == R.Run(config, inputs)
      ensures !phase.Listening? ==>
                receivedBytes == receiver.nextExpectedSeq - conn.peerInitial - 1 - (if conn.peerFIN then 1 else 0) + receiver.bufferedBytes
      ensures conn.outcome.Graceful? ==> conn.finSent && conn.finAcked && conn.peerFIN
      ensures activeConnections + halfOpenConnections == (if phase.Open? then 1 else 0)
    {
      hide R.Step, R.Init, RI.Inv, RI.Later;
      for k := 0 to |inputs|
        invariant Valid() && Value() == R.Run(config, inputs[..k])
      {
        assert inputs[..k + 1][..k] == inputs[..k];
        Perform(inputs[k]);
      }
      assert inputs[..|inputs|] == inputs;
      RI.RunAccounting(config, inputs);
    }
  }
}
