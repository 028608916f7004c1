/** When a transfer can still complete although the network loses everything it holds.

    A continuation here delivers only packets emitted after the state in question, so what was
    lost before has to be repeated by the ends themselves. `CanComplete` shows that they manage
    while the tries they need are left; `TcpDeadEnds` shows that otherwise nothing helps. */
module TcpProgress {
  import opened Basics
  import opened Packets
  import opened TcpSystem
  import S = Sender
  import SI = SenderSafety
  import SS = SenderSteps
  import SP = SenderProgress
  import R = Receiver
  import RI = ReceiverSafety
  import RS = ReceiverSteps
  import RP = ReceiverReports
  import RG = ReceiverProgress
  import RB = ReceiveBuffer

  // ---------- Kept by every step of the composed system ----------

  ghost predicate Open(out: seq<Packet>) {
    forall k :: 0 <= k < |out| && !out[k].flags.rst ==> out[k].window >= 1
  }

  /** Every offer of the receiver has room, and so has the window the sender knows. */
  ghost predicate Offers(s: S.State, r: R.State) {
    Open(r.out) && (s.hs.completed ==> s.space.una < s.space.windowEnd)
  }

  ghost predicate Kept(sys: System) {
    && SP.SynKept(sys.snd) && SP.DataKept(sys.snd) && SP.Tidy(sys.snd)
    && RG.Untouched(sys.rcv) && RG.FINKept(sys.rcv)
    && (sys.rcv.conn.established ==> sys.snd.hs.completed)
    && Offers(sys.snd, sys.rcv)
  }

  /** The receiver's position lies far below the last 64-bit one, so its window is open. */
  lemma WindowOpen(sys: System)
    requires Inv(sys)
    ensures sys.rcv.buffer.next < MAX_UINT64 && RB.WindowBytes(sys.rcv.buffer) >= 1
  {
    hide SI.Karn, SI.Reductions, RI.AllHonest, RI.ReportCurrent, SenderHonest;
  }

  lemma OpenNext(sys: System, next: System)
    requires Open(sys.rcv.out) && Inv(next) && RP.Says(sys.rcv, next.rcv)
    ensures Open(next.rcv.out)
  {
    hide Inv;
    WindowOpen(next);
    forall k | 0 <= k < |next.rcv.out| && !next.rcv.out[k].flags.rst ensures next.rcv.out[k].window >= 1 {
      if k < |sys.rcv.out| {
        assert next.rcv.out[k] == sys.rcv.out[k];
      }
    }
  }

  lemma SenderKept(sys: System, i: S.Input)
    requires Inv(sys) && Kept(sys) && !i.Arrives?
    ensures Kept(Next(sys, SenderActs(i)))
  {
    hide SI.Inv, RI.Inv, Linked, SenderHonest, S.Step, SP.SynKept, SP.DataKept, SP.Tidy, RG.Untouched, RG.FINKept, Open, SS.Emitted;
    SP.SynStep(sys.snd, i);
    SP.DataStep(sys.snd, i);
    SP.TidyStep(sys.snd, i);
    SS.StepCorrect(sys.snd, i);
  }

  lemma ReceiverKept(sys: System, i: R.Input)
    requires Inv(sys) && Kept(sys) && !i.Arrives?
    ensures Kept(Next(sys, ReceiverActs(i)))
  {
    hide SI.Inv, RI.Inv, Linked, SenderHonest, R.Step, SP.SynKept, SP.DataKept, SP.Tidy, RG.Untouched, RG.FINKept, Open, RP.Says;
    RG.UntouchedStep(sys.rcv, i);
    RG.FINStep(sys.rcv, i);
    RP.StepSays(sys.rcv, i);
    NextInv(sys, ReceiverActs(i));
    OpenNext(sys, Next(sys, ReceiverActs(i)));
  }

  lemma DeliveryKept(sys: System, k: nat, ce: bool, a: R.Admission)
    requires Inv(sys) && Kept(sys) && k < |sys.snd.out|
    ensures Kept(Next(sys, ReachesReceiver(k, ce, a)))
  {
    hide SI.Inv, RI.Inv, Linked, R.Step, R.HandlePacket, SP.SynKept, SP.DataKept, SP.Tidy, RG.Untouched, RG.FINKept, Open, RP.Says;
    var p := sys.snd.out[k].(ce := ce);
    assert SS.Honest(sys.snd, sys.snd.out[k]);
    RG.EntersByACK(sys.rcv, p, a);
    ArrivesAtReceiver(sys.rcv, p, a);
    RG.FINStep(sys.rcv, R.Arrives(p, a));
    RP.StepSays(sys.rcv, R.Arrives(p, a));
    NextInv(sys, ReachesReceiver(k, ce, a));
    OpenNext(sys, Next(sys, ReachesReceiver(k, ce, a)));
  }

  /** The receiver's FIN has the one position that the sender expects of it, before it was consumed. */
  lemma NoFINBeyond(sys: System, p: Packet)
    requires Inv(sys) && p in sys.rcv.out
    ensures !(p.flags.fin && sys.snd.conn.peerFIN && p.seqNo == sys.snd.space.receive)
    ensures p.ackNo < MAX_UINT64
  {
    ReceiverHonest(sys, p);
    WindowOpen(sys);
    FINPosition(sys);
    hide SI.Inv, RI.Inv, Linked, SenderHonest;
  }

  lemma FINPosition(sys: System)
    requires Inv(sys)
    ensures sys.rcv.conn.finSent ==> sys.rcv.conn.finSeq == 1 && sys.rcv.conn.next == 2
    ensures !sys.rcv.conn.finSent && !sys.rcv.phase.Listening? ==> sys.rcv.conn.next == 1
    ensures sys.snd.hs.completed ==> sys.snd.space.receive == (if sys.snd.conn.peerFIN then 2 else 1)
    ensures sys.snd.conn.peerFIN ==> sys.rcv.conn.finSent && sys.snd.hs.completed
  {
    hide SI.Karn, SI.Reductions, RI.AllHonest, RI.ReportCurrent, SenderHonest, RS.Within;
  }

  lemma AnswerKept(sys: System, k: nat, c: S.Choices)
    requires Inv(sys) && Kept(sys) && k < |sys.rcv.out|
    ensures Kept(Next(sys, ReachesSender(k, c)))
  {
    hide SI.Inv, RI.Inv, Linked, S.Step, S.HandlePacket, SP.SynKept, SP.DataKept, SP.Tidy, RG.Untouched, RG.FINKept, SS.Emitted;
    var p := sys.rcv.out[k];
    NoFINBeyond(sys, p);
    SP.SynStep(sys.snd, S.Arrives(p, c));
    SP.DataStep(sys.snd, S.Arrives(p, c));
    SP.TidyStep(sys.snd, S.Arrives(p, c));
    SS.StepCorrect(sys.snd, S.Arrives(p, c));
    ReceiverHonest(sys, p);
    SP.ArrivesIs(sys.snd, p, c);
    if p.flags.rst {
      ResetKeepsWindow(sys.snd, p, c);
    }
  }

  lemma ResetKeepsWindow(s: S.State, p: Packet, c: S.Choices)
    requires p.flags.rst
    ensures var t := S.HandlePacket(s, p, c);
      t.hs.completed == s.hs.completed && t.space.una == s.space.una && t.space.windowEnd == s.space.windowEnd
  {
  }

  lemma KeptNext(sys: System, step: Step)
    requires Inv(sys) && Kept(sys)
    ensures Kept(Next(sys, step))
  {
    hide Inv, Kept, S.Step, R.Step;
    match step
    case SenderActs(i) => if !i.Arrives? { SenderKept(sys, i); }
    case ReceiverActs(i) => if !i.Arrives? { ReceiverKept(sys, i); }
    case ReachesReceiver(k, ce, a) => if k < |sys.snd.out| { DeliveryKept(sys, k, ce, a); }
    case ReachesSender(k, c) => if k < |sys.rcv.out| { AnswerKept(sys, k, c); }
  }

  lemma KeptInit(config: Config)
    ensures Kept(Init(config))
  {
  }

  lemma {:induction false} RunKept(config: Config, steps: seq<Step>)
    requires R.ValidConfig(config.rcv)
    ensures Kept(Run(config, steps))
    decreases |steps|
  {
    if steps == [] {
      KeptInit(config);
    } else {
      hide Inv, Kept, Next, Init;
      RunKept(config, steps[..|steps| - 1]);
      RunInv(config, steps[..|steps| - 1]);
      KeptNext(Run(config, steps[..|steps| - 1]), steps[|steps| - 1]);
    }
  }

  // ---------- What is left to try ----------

  ghost predicate Done(sys: System) {
    sys.snd.stream.transfer.Succeeded?
  }

  /** Neither end has given the connection up, and the sender has a source. */
  ghost predicate Undecided(sys: System) {
    && !sys.snd.terminated && !sys.rcv.phase.Released? && sys.snd.stream.unsent.Some?
    && 1 <= sys.snd.config.mss <= MAX_INT64
  }

  /** The receiver has started its FIN and the sender does not know. */
  predicate FINMissing(sys: System) {
    sys.rcv.conn.finSent && !sys.snd.conn.peerFIN
  }

  predicate FINTriesLeft(r: R.State) {
    r.conn.finTimeouts < r.config.maxFINRetries
  }

  /** Some step makes the receiver acknowledge again although the oldest bytes may not be
      repeated: its own FIN, new payload, or a repair behind the oldest byte. */
  predicate AnotherWay(sys: System) {
    || (!sys.rcv.conn.finAcked && FINTriesLeft(sys.rcv))
    || (S.Unsent(sys.snd.stream) > 0 && sys.snd.space.next < sys.snd.space.windowEnd)
    || (sys.snd.loss.recovering && sys.snd.space.una + 2 <= sys.snd.space.next)
  }

  /** The receiver has the oldest unconfirmed byte and can be made to say so. */
  predicate CanBeTold(sys: System) {
    sys.snd.space.una < sys.rcv.buffer.next && (sys.snd.conn.peerFIN ==> AnotherWay(sys))
  }

  /** The tries that a transfer needs when nothing emitted so far will arrive. */
  ghost predicate TriesLeft(sys: System) {
    if !sys.snd.hs.completed then sys.snd.hs.retries < MAX_RETRANSMISSIONS
    else
      && (FINMissing(sys) ==> FINTriesLeft(sys.rcv))
      && (sys.snd.space.pending != [] ==> sys.snd.space.oldestRetries < MAX_RETRANSMISSIONS || CanBeTold(sys))
  }

  // ---------- The fresh part of the wire ----------

  ghost predicate FreshSyn(s: S.State, n: nat) {
    exists k :: n <= k < |s.out| && SP.IsSyn(s.out[k])
  }

  ghost predicate FreshSynAck(r: R.State, m: nat) {
    exists k :: m <= k < |r.out| && r.out[k].flags.syn
  }

  ghost predicate FreshFIN(r: R.State, m: nat) {
    exists k :: m <= k < |r.out| && RG.Announces(r, r.out[k])
  }

  ghost predicate FreshACK(sys: System, m: nat) {
    exists k :: m <= k < |sys.rcv.out| && SP.Acknowledges(sys.snd, sys.rcv.out[k])
  }

  /** Data that the receiver answers, or takes its next byte from. */
  ghost predicate Helpful(sys: System, p: Packet) {
    SP.IsData(p) && (SP.Carries(p, sys.snd.space.una) || (sys.snd.space.una < sys.rcv.buffer.next && sys.rcv.conn.finSent))
  }

  ghost predicate FreshData(sys: System, n: nat) {
    exists k :: n <= k < |sys.snd.out| && Helpful(sys, sys.snd.out[k])
  }

  /** The receiver has the oldest byte and will say so when its delay is over. */
  predicate DelayDue(sys: System) {
    sys.snd.space.una < sys.rcv.buffer.next && RG.Delays(sys.rcv)
  }

  /** Tries are left, or what they would emit is on the fresh part of the wire already. */
  ghost predicate Chance(sys: System, n: nat, m: nat) {
    if !sys.snd.hs.completed then sys.snd.hs.retries < MAX_RETRANSMISSIONS || FreshSyn(sys.snd, n) || FreshSynAck(sys.rcv, m)
    else
      && (FINMissing(sys) ==> FINTriesLeft(sys.rcv) || FreshFIN(sys.rcv, m))
      && (sys.snd.space.pending != [] ==>
            || sys.snd.space.oldestRetries < MAX_RETRANSMISSIONS || CanBeTold(sys)
            || (!FINMissing(sys) && (FreshACK(sys, m) || DelayDue(sys) || FreshData(sys, n))))
  }

  ghost predicate Live(sys: System, n: nat, m: nat) {
    Inv(sys) && Kept(sys) && Undecided(sys) && Chance(sys, n, m) && n <= |sys.snd.out| && m <= |sys.rcv.out|
  }

  // ---------- One well-chosen step ----------

  predicate FreshStep(step: Step, n: nat, m: nat) {
    (step.ReachesReceiver? ==> step.k >= n) && (step.ReachesSender? ==> step.k >= m)
  }

  /** What is fresh after the step: in order, and each packet at most once. */
  function ReceiverMark(step: Step, n: nat): nat {
    if step.ReachesReceiver? then step.k + 1 else n
  }

  function SenderMark(step: Step, m: nat): nat {
    if step.ReachesSender? then step.k + 1 else m
  }

  function Remaining(sys: System): nat {
    Max(0, sys.snd.stream.remaining)
  }

  /** How many steps are left until the sender has consumed the receiver's FIN. */
  ghost function FINLeft(sys: System, m: nat): nat {
    if !sys.snd.hs.completed || sys.snd.conn.peerFIN then 0
    else if !sys.rcv.conn.finSent then 3
    else if FreshFIN(sys.rcv, m) then 1
    else 2
  }

  /** How many steps are left until the handshake is done or payload is confirmed. */
  ghost function Left(sys: System, n: nat, m: nat): nat {
    if !sys.snd.hs.completed then
      if !sys.snd.hs.started then 4 else if sys.snd.hs.synWaiting then 3
      else if FreshSynAck(sys.rcv, m) then 0 else if FreshSyn(sys.snd, n) then 1 else 2
    else if sys.snd.space.pending == [] then 4
    else if FreshACK(sys, m) then 0
    else if DelayDue(sys) then 1
    else if FreshData(sys, n) then 2
    else 3
  }

  function Opening(sys: System): nat {
    if sys.snd.hs.completed then 0 else 1
  }

  ghost predicate Closer(sys: System, n: nat, m: nat, next: System, n': nat, m': nat) {
    || Opening(next) < Opening(sys)
    || (Opening(next) == Opening(sys) && Remaining(next) < Remaining(sys))
    || (Opening(next) == Opening(sys) && Remaining(next) == Remaining(sys) && FINLeft(next, m') < FINLeft(sys, m))
    || (Opening(next) == Opening(sys) && Remaining(next) == Remaining(sys) && FINLeft(next, m') == FINLeft(sys, m)
        && Left(next, n', m') < Left(sys, n, m))
  }

  /** The step delivers nothing lost, keeps the transfer possible and brings it closer. */
  ghost predicate Advances(sys: System, step: Step, n: nat, m: nat) {
    var next, n', m' := Next(sys, step), ReceiverMark(step, n), SenderMark(step, m);
    && FreshStep(step, n, m) && n' <= |next.snd.out| && m' <= |next.rcv.out|
    && Undecided(next) && Chance(next, n', m') && Closer(sys, n, m, next, n', m')
  }

  lemma HandshakeAdvances(sys: System, n: nat, m: nat) returns (step: Step)
    requires Live(sys, n, m) && !sys.snd.hs.completed
    ensures Advances(sys, step, n, m)
  {
    hide SI.Inv, RI.Inv, Linked, SenderHonest, S.Step, R.Step, SP.DataKept, SP.SynKept, SP.Tidy, RG.Untouched, RG.FINKept, SS.Local, SS.Learns;
    var s := sys.snd;
    SP.OpeningEffects(s);
    FirstTries(s);
    ConfigSame(sys);
    WiresGrow(sys);
    NoEarlyFIN(sys);
    if !s.hs.started {
      step := SenderActs(S.DoEstablish);
      NextInv(sys, step);
      FirstTries(Next(sys, step).snd);
    } else if s.hs.synWaiting {
      step := SenderActs(S.SynSendFires);
      assert SP.IsSyn(Next(sys, step).snd.out[|s.out|]);
    } else if FreshSynAck(sys.rcv, m) {
      var k :| m <= k < |sys.rcv.out| && sys.rcv.out[k].flags.syn;
      step := ReachesSender(k, SP.BENIGN);
      SynAckHonest(sys, k);
      SP.SynAckEffect(s, sys.rcv.out[k]);
    } else if FreshSyn(s, n) {
      var k :| n <= k < |s.out| && SP.IsSyn(s.out[k]);
      step := ReachesReceiver(k, false, RG.WILLING);
      SynHonest(sys, k);
      RG.SYNEffect(sys.rcv, s.out[k].(ce := false));
      assert Next(sys, step).rcv.out[|sys.rcv.out|].flags.syn;
    } else {
      step := SenderActs(S.SynTimerFires);
      assert SP.IsSyn(Next(sys, step).snd.out[|s.out|]);
    }
  }

  lemma NoEarlyFIN(sys: System)
    requires Inv(sys) && Kept(sys) && !sys.snd.hs.completed
    ensures !sys.rcv.conn.finSent
  {
    hide SI.Inv, Linked, SenderHonest, RI.AllHonest, RI.StreamInv, RI.ReportCurrent;
  }

  lemma FirstTries(s: S.State)
    requires SI.Inv(s)
    ensures !s.hs.started || s.hs.synWaiting ==> s.hs.retries == 0
  {
    hide SI.Karn, SI.Reductions;
  }

  /** No step changes a configuration. */
  lemma ConfigSame(sys: System)
    requires Inv(sys)
    ensures forall step :: Next(sys, step).snd.config == sys.snd.config
  {
    hide SI.Inv, RI.Inv, Linked, SenderHonest, S.Step, R.Step;
    forall step ensures Next(sys, step).snd.config == sys.snd.config {
      match step {
        case SenderActs(i) => SS.StepCorrect(sys.snd, i);
        case ReachesSender(k, c) => if k < |sys.rcv.out| { SS.StepCorrect(sys.snd, S.Arrives(sys.rcv.out[k], c)); }
        case _ =>
      }
    }
  }

  lemma SynAckHonest(sys: System, k: nat)
    requires Inv(sys) && k < |sys.rcv.out| && sys.rcv.out[k].flags.syn
    ensures var p := sys.rcv.out[k];
      && SI.Inv(sys.snd) && p.flags.ack && !p.flags.fin && !p.flags.rst && !p.flags.psh && p.size == 0 && p.ackNo == 1 && p.seqNo == 0
      && ValidSACKOptions(p)
  {
    ReceiverHonest(sys, sys.rcv.out[k]);
    PeerStartsAtZero(sys);
    hide SI.Inv, RI.Inv, Linked, SenderHonest;
  }

  lemma PeerStartsAtZero(sys: System)
    requires Inv(sys)
    ensures !sys.rcv.phase.Listening? ==> sys.rcv.conn.peerInitial == 0
    ensures sys.snd.hs.completed ==> sys.snd.space.peerInitial == 0 && !sys.rcv.phase.Listening?
    ensures sys.rcv.phase.Open? && !sys.rcv.conn.established ==> !sys.rcv.conn.finSent
  {
    hide SI.Inv, SenderHonest, RI.AllHonest, RI.StreamInv, RI.ReportCurrent;
  }

  lemma SynHonest(sys: System, k: nat)
    requires Inv(sys) && Kept(sys) && !sys.snd.hs.completed && k < |sys.snd.out| && SP.IsSyn(sys.snd.out[k])
    ensures var p := sys.snd.out[k].(ce := false); var r := sys.rcv;
      && RI.Inv(r) && (r.phase.Open? ==> r.conn.peerInitial == 0 && !r.conn.finSent)
      && p.flags.syn && !p.flags.ack && !p.flags.fin && !p.flags.rst && p.size == 0 && p.seqNo == 0 && ValidSACKOptions(p)
  {
    PeerStartsAtZero(sys);
    assert SS.Honest(sys.snd, sys.snd.out[k]);
    hide SI.Inv, RI.Inv, Linked, SP.DataKept, SP.Tidy;
  }

  /** With the transfer open and the handshake done there are bytes left to confirm. */
  lemma StillBusy(sys: System)
    requires Inv(sys) && Kept(sys) && Undecided(sys) && sys.snd.hs.completed && !Done(sys)
    ensures SP.Busy(sys.snd) && SI.Inv(sys.snd) && RI.Inv(sys.rcv) && sys.rcv.phase.Open?
    ensures !sys.rcv.conn.peerFIN && !sys.rcv.conn.pendingFIN
    ensures 1 <= sys.snd.space.una <= sys.rcv.buffer.next <= SI.DataEnd(sys.snd.conn, sys.snd.space) == sys.snd.space.next < MAX_UINT64
  {
    hide SI.Karn, SI.Reductions, RI.AllHonest, RI.ReportCurrent, SenderHonest, SP.DataKept, SP.SynKept;
  }

  /** The receiver's FIN comes first: nothing else of the receiver counts before it. */
  lemma FINAdvances(sys: System, n: nat, m: nat) returns (step: Step)
    requires Live(sys, n, m) && !Done(sys) && sys.snd.hs.completed && FINMissing(sys)
    ensures Advances(sys, step, n, m)
  {
    hide SI.Inv, RI.Inv, Linked, SenderHonest, S.Step, R.Step, SP.DataKept, SP.SynKept, SP.Tidy, RG.Untouched, RG.FINKept, SS.Local, SS.Learns;
    hide SP.Acknowledges, RG.Announces, FreshData, FreshACK;
    StillBusy(sys);
    ConfigSame(sys);
    WiresGrow(sys);
    FINPosition(sys);
    if FreshFIN(sys.rcv, m) {
      var k :| m <= k < |sys.rcv.out| && RG.Announces(sys.rcv, sys.rcv.out[k]);
      step := ReachesSender(k, SP.BENIGN);
      FINHonest(sys, k);
      SP.FINEffect(sys.snd, sys.rcv.out[k]);
    } else {
      step := ReceiverActs(R.FinTimerFires);
      RG.FINEffects(sys.rcv);
      AckedNotMissing(sys);
      assert RG.Announces(Next(sys, step).rcv, Next(sys, step).rcv.out[|sys.rcv.out|]);
    }
  }

  lemma AckedNotMissing(sys: System)
    requires Inv(sys)
    ensures FINMissing(sys) ==> !sys.rcv.conn.finAcked
  {
    hide SI.Inv, RI.Inv, SenderHonest, RS.Within;
  }

  lemma FINHonest(sys: System, k: nat)
    requires Inv(sys) && Kept(sys) && Undecided(sys) && !Done(sys) && sys.snd.hs.completed && FINMissing(sys)
    requires k < |sys.rcv.out| && RG.Announces(sys.rcv, sys.rcv.out[k])
    ensures SP.EndsPeer(sys.snd, sys.rcv.out[k]) && sys.rcv.out[k].ackNo == sys.rcv.buffer.next
  {
    hide SI.Inv, RI.Inv, Linked, SenderHonest, SP.DataKept, SP.SynKept, SP.Tidy;
    StillBusy(sys);
    ReceiverHonest(sys, sys.rcv.out[k]);
    FINPosition(sys);
    PeerStartsAtZero(sys);
  }

  /** Payload: send, have it taken, have it confirmed, repeat what is missing. */
  lemma PayloadAdvances(sys: System, n: nat, m: nat) returns (step: Step)
    requires Live(sys, n, m) && !Done(sys) && sys.snd.hs.completed && !FINMissing(sys)
    ensures Advances(sys, step, n, m)
  {
    hide SI.Inv, RI.Inv, Linked, SenderHonest, S.Step, R.Step, SP.SynKept, SP.DataKept, SP.Tidy, RG.FINKept, SS.Local, SS.Learns;
    hide SP.Acknowledges, RG.Confirms, RG.Untouched, RG.Announces, Helpful, SP.IsData, SP.Carries, Open;
    StillBusy(sys);
    ConfigSame(sys);
    WiresGrow(sys);
    SS.NothingPending(sys.snd);
    FINPosition(sys);
    var s := sys.snd;
    if s.space.pending == [] {
      step := SenderActs(S.SendFires(None, 0));
      SP.NothingPendingUnsent(s);
      SP.SendEffect(s);
      NowHelpful(sys, Next(sys, step));
    } else if FreshACK(sys, m) {
      var k :| m <= k < |sys.rcv.out| && SP.Acknowledges(s, sys.rcv.out[k]);
      step := ReachesSender(k, SP.BENIGN);
      SP.ACKEffect(s, sys.rcv.out[k]);
      AcknowledgesMore(s, sys.rcv.out[k]);
    } else if DelayDue(sys) || FreshData(sys, n) {
      step := ArrivalAdvances(sys, n, m);
    } else if s.space.oldestRetries < MAX_RETRANSMISSIONS {
      step := SenderActs(S.DataTimerFires);
      SP.RetryEffect(s);
      NowHelpful(sys, Next(sys, step));
    } else {
      step := ToldAdvances(sys, n, m);
    }
  }

  /** A helpful packet arrives, or the delayed answer to one leaves. */
  lemma ArrivalAdvances(sys: System, n: nat, m: nat) returns (step: Step)
    requires Live(sys, n, m) && !Done(sys) && sys.snd.hs.completed && !FINMissing(sys) && sys.snd.space.pending != []
    requires !FreshACK(sys, m) && (DelayDue(sys) || FreshData(sys, n))
    ensures Advances(sys, step, n, m)
  {
    hide SI.Inv, RI.Inv, Linked, SenderHonest, S.Step, R.Step, SP.SynKept, SP.DataKept, SP.Tidy, RG.FINKept, SS.Local, SS.Learns;
    hide SP.Acknowledges, RG.Confirms, RG.Untouched, RG.Announces, Helpful, SP.IsData, SP.Carries, Open;
    StillBusy(sys);
    ConfigSame(sys);
    WiresGrow(sys);
    if DelayDue(sys) {
      step := ReceiverActs(R.DelayFires);
      RG.DelayEffect(sys.rcv);
      NextInv(sys, step);
      ConfirmsAcknowledges(sys, Next(sys, step));
    } else {
      var k :| n <= k < |sys.snd.out| && Helpful(sys, sys.snd.out[k]);
      step := ReachesReceiver(k, false, RG.WILLING);
      Delivered(sys, k);
    }
  }

  /** The last packet of the sender helps. */
  lemma NowHelpful(sys: System, next: System)
    requires next.rcv == sys.rcv && SP.Emits(sys.snd, next.snd) && SP.IsData(next.snd.out[|sys.snd.out|])
    requires || SP.Carries(next.snd.out[|sys.snd.out|], sys.snd.space.una)
             || (sys.snd.space.una < sys.rcv.buffer.next && sys.rcv.conn.finSent)
    ensures Helpful(next, next.snd.out[|sys.snd.out|])
  {
  }

  /** The oldest bytes may not be repeated, but the receiver has them and is made to say so. */
  lemma ToldAdvances(sys: System, n: nat, m: nat) returns (step: Step)
    requires Live(sys, n, m) && !Done(sys) && sys.snd.hs.completed && !FINMissing(sys)
    requires sys.snd.space.pending != [] && CanBeTold(sys) && !FreshACK(sys, m) && !FreshData(sys, n) && !DelayDue(sys)
    ensures Advances(sys, step, n, m)
  {
    hide SI.Inv, RI.Inv, Linked, SenderHonest, S.Step, R.Step, SP.SynKept, SP.DataKept, SP.Tidy, RG.FINKept, SS.Local, SS.Learns;
    hide SP.Acknowledges, RG.Confirms, RG.Announces, Helpful, SP.IsData, SP.Carries, Open;
    StillBusy(sys);
    ConfigSame(sys);
    WiresGrow(sys);
    FINPosition(sys);
    PeerStartsAtZero(sys);
    var s := sys.snd;
    RG.FINEffects(sys.rcv);
    if !s.conn.peerFIN {
      step := ReceiverActs(R.DoClose);
      assert RG.Announces(Next(sys, step).rcv, Next(sys, step).rcv.out[|sys.rcv.out|]);
    } else if !sys.rcv.conn.finAcked && FINTriesLeft(sys.rcv) {
      step := ReceiverActs(R.FinTimerFires);
      NextInv(sys, step);
      RepeatAcknowledges(sys, Next(sys, step));
    } else if S.Unsent(s.stream) > 0 && s.space.next < s.space.windowEnd {
      step := SenderActs(S.SendFires(None, 0));
      SP.SendEffect(s);
      NowHelpful(sys, Next(sys, step));
    } else {
      step := SenderActs(S.Repair(SACKBlock(s.space.una + 1, s.space.next)));
      SP.RepairEffect(s);
      NowHelpful(sys, Next(sys, step));
    }
  }

  /** A repeat of a FIN that the sender has consumed still acknowledges. */
  lemma RepeatAcknowledges(sys: System, next: System)
    requires Inv(sys) && Kept(sys) && Undecided(sys) && !Done(sys) && sys.snd.hs.completed && sys.snd.conn.peerFIN
    requires Inv(next) && next.snd == sys.snd && RG.SaysFIN(sys.rcv, next.rcv) && sys.snd.space.una < sys.rcv.buffer.next
    ensures SP.Acknowledges(next.snd, next.rcv.out[|sys.rcv.out|])
  {
    hide SI.Inv, RI.Inv, SP.DataKept, SP.SynKept, SP.Tidy, SenderHonest;
    StillBusy(sys);
    FINPosition(next);
    WindowOpen(next);
    ReceiverHonest(next, next.rcv.out[|sys.rcv.out|]);
    NextWithin(next);
  }

  lemma AcknowledgesMore(s: S.State, p: Packet)
    requires SP.Acknowledges(s, p)
    ensures s.space.una < p.ackNo
  {
  }

  /** A helpful packet reaches the receiver: it has the oldest byte then, and says so at once or
      after a delay. */
  lemma Delivered(sys: System, k: nat)
    requires Inv(sys) && Kept(sys) && Undecided(sys) && !Done(sys) && sys.snd.hs.completed && !FINMissing(sys)
    requires sys.snd.space.pending != [] && k < |sys.snd.out| && Helpful(sys, sys.snd.out[k])
    ensures var next := Next(sys, ReachesReceiver(k, false, RG.WILLING));
      && next.snd == sys.snd && next.rcv.phase.Open? && next.rcv.conn.finSent == sys.rcv.conn.finSent
      && |sys.rcv.out| <= |next.rcv.out| && sys.snd.space.una < next.rcv.buffer.next
      && (RG.Delays(next.rcv)
          || (|next.rcv.out| == |sys.rcv.out| + 1 && SP.Acknowledges(sys.snd, next.rcv.out[|sys.rcv.out|])))
  {
    hide SI.Inv, RI.Inv, Linked, SenderHonest, S.Step, R.Step, SP.SynKept, SP.Tidy, RG.FINKept, SP.DataKept;
    hide SP.Acknowledges, RG.Confirms, RG.Takes, SS.Honest, SP.IsData, RG.Delays;
    StillBusy(sys);
    var s, r := sys.snd, sys.rcv;
    var p := s.out[k].(ce := false);
    DataHonest(sys, k);
    PeerStartsAtZero(sys);
    var step := ReachesReceiver(k, false, RG.WILLING);
    NextInv(sys, step);
    RI.StepKeeps(r, R.Arrives(p, RG.WILLING));
    if SP.Carries(s.out[k], s.space.una) {
      RG.DataEffect(r, p, p.seqNo + p.size);
    } else {
      RG.PokeEffect(r, p, p.seqNo + p.size);
    }
    if RG.Answers(r, Next(sys, step).rcv) {
      ConfirmsAcknowledges(sys, Next(sys, step));
    }
  }

  lemma DataHonest(sys: System, k: nat)
    requires Inv(sys) && Kept(sys) && Undecided(sys) && !Done(sys) && sys.snd.hs.completed
    requires k < |sys.snd.out| && SP.IsData(sys.snd.out[k])
    ensures var p := sys.snd.out[k].(ce := false); p.size > 0 && RG.Takes(sys.rcv, p, p.seqNo + p.size)
  {
    hide SI.Inv, RI.Inv, Linked, SP.DataKept, SP.SynKept, SP.Tidy;
    StillBusy(sys);
    WindowOpen(sys);
    FINPosition(sys);
    PeerStartsAtZero(sys);
    assert SS.Honest(sys.snd, sys.snd.out[k]);
  }

  /** The answer is one that the sender takes. */
  lemma ConfirmsAcknowledges(sys: System, next: System)
    requires Inv(sys) && Kept(sys) && Undecided(sys) && !Done(sys) && sys.snd.hs.completed && !FINMissing(sys)
    requires Inv(next) && next.snd == sys.snd
    requires next.rcv.phase.Open? && next.rcv.conn.finSent == sys.rcv.conn.finSent && sys.snd.space.una < next.rcv.buffer.next
    requires |next.rcv.out| == |sys.rcv.out| + 1 && RG.Confirms(next.rcv, next.rcv.out[|sys.rcv.out|])
    ensures SP.Acknowledges(sys.snd, next.rcv.out[|sys.rcv.out|])
  {
    hide SI.Inv, RI.Inv, SP.DataKept, SP.SynKept, SP.Tidy, SenderHonest;
    StillBusy(sys);
    FINPosition(next);
    WindowOpen(next);
    ReceiverHonest(next, next.rcv.out[|sys.rcv.out|]);
    NextWithin(next);
  }

  lemma NextWithin(sys: System)
    requires Inv(sys) && !sys.snd.conn.finSent
    ensures sys.rcv.buffer.next <= sys.snd.space.next
  {
    hide SI.Inv, RI.Inv, SenderHonest;
  }

  // ---------- Every state with tries left ----------

  function RunFrom(sys: System, more: seq<Step>): System
    decreases |more|
  {
    if more == [] then sys else RunFrom(Next(sys, more[0]), more[1..])
  }

  /** No step delivers one of the sender's first `n` or the receiver's first `m` packets. */
  ghost predicate FreshSteps(more: seq<Step>, n: nat, m: nat) {
    forall j :: 0 <= j < |more| ==> FreshStep(more[j], n, m)
  }

  /** Deliveries in the order of emission, each packet at most once, all behind the marks: what a
      link with a constant delay does that loses some packets. */
  ghost predicate InOrder(more: seq<Step>, n: nat, m: nat)
    decreases |more|
  {
    more == [] || (FreshStep(more[0], n, m) && InOrder(more[1..], ReceiverMark(more[0], n), SenderMark(more[0], m)))
  }

  lemma {:induction false} InOrderFresh(more: seq<Step>, n: nat, m: nat, low: nat, least: nat)
    requires InOrder(more, n, m) && low <= n && least <= m
    ensures FreshSteps(more, low, least)
    decreases |more|
  {
    if more != [] {
      InOrderFresh(more[1..], ReceiverMark(more[0], n), SenderMark(more[0], m), low, least);
      assert forall j :: 1 <= j < |more| ==> more[j] == more[1..][j - 1];
    }
  }

  ghost predicate CanSucceed(sys: System, n: nat, m: nat) {
    exists more: seq<Step> :: InOrder(more, n, m) && Done(RunFrom(sys, more))
  }

  lemma DoneNow(sys: System, n: nat, m: nat)
    requires Done(sys)
    ensures CanSucceed(sys, n, m)
  {
    var none: seq<Step> := [];
    assert RunFrom(sys, none) == sys && InOrder(none, n, m);
  }

  lemma FirstStep(sys: System, step: Step, n: nat, m: nat)
    requires FreshStep(step, n, m) && CanSucceed(Next(sys, step), ReceiverMark(step, n), SenderMark(step, m))
    ensures CanSucceed(sys, n, m)
  {
    hide Next, Done;
    var more: seq<Step> :| InOrder(more, ReceiverMark(step, n), SenderMark(step, m)) && Done(RunFrom(Next(sys, step), more));
    var longer := [step] + more;
    assert longer[1..] == more;
    assert RunFrom(sys, longer) == RunFrom(Next(sys, step), more);
    assert InOrder(longer, n, m);
  }

  lemma {:induction false} Completes(sys: System, n: nat, m: nat)
    requires Live(sys, n, m)
    ensures CanSucceed(sys, n, m)
    decreases Opening(sys), Remaining(sys), FINLeft(sys, m), Left(sys, n, m)
  {
    hide Inv, Kept, Next, Undecided, Chance, CanSucceed, RunFrom, FreshStep, FINLeft, Left, Opening, Remaining, ReceiverMark, SenderMark;
    if Done(sys) {
      DoneNow(sys, n, m);
    } else {
      var step;
      if !sys.snd.hs.completed {
        step := HandshakeAdvances(sys, n, m);
      } else if FINMissing(sys) {
        step := FINAdvances(sys, n, m);
      } else {
        step := PayloadAdvances(sys, n, m);
      }
      NextInv(sys, step);
      KeptNext(sys, step);
      Completes(Next(sys, step), ReceiverMark(step, n), SenderMark(step, m));
      FirstStep(sys, step, n, m);
    }
  }

  lemma WiresGrow(sys: System)
    requires Inv(sys)
    ensures forall step :: |sys.snd.out| <= |Next(sys, step).snd.out| && |sys.rcv.out| <= |Next(sys, step).rcv.out|
  {
    hide Inv, Next;
    forall step ensures |sys.snd.out| <= |Next(sys, step).snd.out| && |sys.rcv.out| <= |Next(sys, step).rcv.out| {
      WireGrows(sys, step);
    }
  }

  lemma WireGrows(sys: System, step: Step)
    requires Inv(sys)
    ensures |sys.snd.out| <= |Next(sys, step).snd.out| && |sys.rcv.out| <= |Next(sys, step).rcv.out|
  {
    hide SI.Inv, RI.Inv, Linked, SenderHonest, S.Step, R.Step, SS.Honest;
    NextInv(sys, step);
    match step {
      case SenderActs(i) => SS.StepCorrect(sys.snd, i);
      case ReachesSender(k, c) => if k < |sys.rcv.out| { SS.StepCorrect(sys.snd, S.Arrives(sys.rcv.out[k], c)); }
      case _ =>
    }
  }

  lemma {:induction false} Continued(config: Config, steps: seq<Step>, more: seq<Step>)
    ensures Run(config, steps + more) == RunFrom(Run(config, steps), more)
    decreases |more|
  {
    if more == [] {
      assert steps + more == steps;
    } else {
      hide Next, Init;
      var first := steps + [more[0]];
      assert first[..|steps|] == steps;
      assert steps + more == first + more[1..];
      Continued(config, first, more[1..]);
    }
  }

  /** Some continuation of the run that delivers nothing emitted before it records success. */
  ghost predicate CanRecover(config: Config, steps: seq<Step>) {
    var sys := Run(config, steps);
    exists more: seq<Step> ::
      FreshSteps(more, |sys.snd.out|, |sys.rcv.out|) && Done(Run(config, steps + more))
  }

  /** The same over a network that in addition neither repeats nor reorders. */
  ghost predicate CanRecoverInOrder(config: Config, steps: seq<Step>) {
    var sys := Run(config, steps);
    exists more: seq<Step> ::
      InOrder(more, |sys.snd.out|, |sys.rcv.out|) && Done(Run(config, steps + more))
  }

  lemma RecoverFrom(config: Config, steps: seq<Step>)
    ensures var sys := Run(config, steps);
      CanRecoverInOrder(config, steps) <==> CanSucceed(sys, |sys.snd.out|, |sys.rcv.out|)
  {
    hide Run, RunFrom, Done, InOrder;
    forall more ensures Run(config, steps + more) == RunFrom(Run(config, steps), more) {
      Continued(config, steps, more);
    }
  }

  lemma InOrderRecovers(config: Config, steps: seq<Step>)
    ensures CanRecoverInOrder(config, steps) ==> CanRecover(config, steps)
  {
    hide Run, Done, InOrder, FreshSteps;
    var sys := Run(config, steps);
    forall more | InOrder(more, |sys.snd.out|, |sys.rcv.out|) ensures FreshSteps(more, |sys.snd.out|, |sys.rcv.out|) {
      InOrderFresh(more, |sys.snd.out|, |sys.rcv.out|, |sys.snd.out|, |sys.rcv.out|);
    }
  }

  /** Whatever was lost: while the tries are left, some continuation of timers, fresh packets and
      their deliveries in order records success. */
  lemma CanComplete(config: Config, steps: seq<Step>)
    requires R.ValidConfig(config.rcv) && 1 <= config.snd.mss <= MAX_INT64 && Run(config, steps).snd.stream.unsent.Some?
    requires var sys := Run(config, steps); !sys.snd.terminated && !sys.rcv.phase.Released? && TriesLeft(sys)
    ensures CanRecoverInOrder(config, steps)
  {
    hide Inv, Kept, Run, RunFrom;
    RunInv(config, steps);
    RunKept(config, steps);
    RunConfig(config, steps);
    var sys := Run(config, steps);
    Completes(sys, |sys.snd.out|, |sys.rcv.out|);
    RecoverFrom(config, steps);
  }

  lemma {:induction false} RunConfig(config: Config, steps: seq<Step>)
    requires R.ValidConfig(config.rcv)
    ensures Run(config, steps).snd.config == config.snd
    decreases |steps|
  {
    if steps != [] {
      hide Inv, Next;
      RunConfig(config, steps[..|steps| - 1]);
      RunInv(config, steps[..|steps| - 1]);
      ConfigSame(Run(config, steps[..|steps| - 1]));
    }
  }
}
