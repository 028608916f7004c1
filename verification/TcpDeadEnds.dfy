/** When a transfer cannot complete any more: without the tries that `TcpProgress` uses, nothing
    that either end still does, and no delivery of what it still emits, leads to success. */
module TcpDeadEnds {
  import opened Basics
  import opened Packets
  import opened TcpSystem
  import opened TcpProgress
  import S = Sender
  import SI = SenderSafety
  import SS = SenderSteps
  import SP = SenderProgress
  import ST = SenderStalls
  import R = Receiver
  import RI = ReceiverSafety
  import RS = ReceiverSteps
  import RG = ReceiverProgress
  import RT = ReceiverStalls

  // ---------- Six ways to be stuck ----------

  /** Before the handshake is done, or with the byte at `una` unconfirmed. */
  ghost predicate Short(s: S.State, una: int) {
    s.hs.completed ==> s.space.una == una && una - 1 < s.stream.size
  }

  /** The sender has given up. */
  ghost predicate GaveUp(sys: System) {
    sys.snd.terminated && !Done(sys)
  }

  /** The receiver is released and has nothing fresh on the wire. */
  ghost predicate Deserted(sys: System, m: nat, una: int) {
    sys.rcv.phase.Released? && |sys.rcv.out| == m && Short(sys.snd, una)
  }

  /** The SYN may not be repeated, and no answer to it is fresh. */
  ghost predicate Unasked(sys: System, n: nat, m: nat) {
    && !sys.snd.hs.completed && (sys.snd.terminated || ST.Unheard(sys.snd)) && |sys.snd.out| == n
    && forall k :: m <= k < |sys.rcv.out| ==> !sys.rcv.out[k].flags.syn
  }

  /** The sender waits for a FIN that the receiver may not repeat. */
  ghost predicate Deaf(sys: System, m: nat, una: int) {
    && sys.snd.hs.completed && Short(sys.snd, una) && FINMissing(sys) && RT.FINSpent(sys.rcv)
    && forall k :: m <= k < |sys.rcv.out| ==>
         !sys.rcv.out[k].flags.fin && !sys.rcv.out[k].flags.syn && sys.rcv.out[k].seqNo == sys.rcv.conn.next
  }

  /** The receiver waits for a byte that the sender may not repeat. */
  ghost predicate Hungry(sys: System, n: nat, una: int) {
    && sys.snd.hs.completed && Short(sys.snd, una) && ST.Spent(sys.snd) && sys.rcv.buffer.next <= una
    && forall k :: n <= k < |sys.snd.out| && sys.snd.out[k].size > 0 ==> una < sys.snd.out[k].seqNo
  }

  /** The receiver has the byte, but neither end has anything left to say. */
  ghost predicate Silent(sys: System, n: nat, m: nat, una: int) {
    && sys.snd.hs.completed && Short(sys.snd, una) && ST.Silenced(sys.snd) && |sys.snd.out| == n
    && RT.FINSettled(sys.rcv)
    && forall k :: m <= k < |sys.rcv.out| ==> sys.rcv.out[k].flags.rst
  }

  ghost predicate Stuck(sys: System, n: nat, m: nat, una: int) {
    || GaveUp(sys) || Deserted(sys, m, una) || Unasked(sys, n, m) || Deaf(sys, m, una) || Hungry(sys, n, una)
    || Silent(sys, n, m, una)
  }

  lemma StuckFails(sys: System, n: nat, m: nat, una: int)
    requires Inv(sys) && Stuck(sys, n, m, una)
    ensures !Done(sys)
  {
    hide SI.Inv, RI.Inv, Linked, SenderHonest;
    if !GaveUp(sys) {
      ST.NoSuccess(sys.snd);
    }
  }

  // ---------- Each is kept by every fresh step ----------

  lemma GaveUpStays(sys: System, step: Step)
    requires Inv(sys) && GaveUp(sys)
    ensures GaveUp(Next(sys, step))
  {
    hide SI.Inv, RI.Inv, Linked, SenderHonest, S.Step, R.Step;
    match step {
      case SenderActs(i) => SS.EndedStep(sys.snd, i);
      case ReachesSender(k, c) => if k < |sys.rcv.out| { SS.EndedStep(sys.snd, S.Arrives(sys.rcv.out[k], c)); }
      case _ =>
    }
  }

  lemma DesertedStays(sys: System, step: Step, n: nat, m: nat, una: int)
    requires Inv(sys) && Deserted(sys, m, una) && FreshStep(step, n, m)
    ensures Deserted(Next(sys, step), m, una)
  {
    hide SI.Inv, RI.Inv, Linked, SenderHonest, S.Step, R.Step;
    match step {
      case SenderActs(i) => if !i.Arrives? { ST.StaysShort(sys.snd, i); }
      case ReceiverActs(i) => RT.ReleasedSilent(sys.rcv, i);
      case ReachesReceiver(k, ce, a) =>
        if k < |sys.snd.out| { RT.ReleasedSilent(sys.rcv, R.Arrives(sys.snd.out[k].(ce := ce), a)); }
      case ReachesSender(k, c) =>
    }
  }

  lemma UnaskedStays(sys: System, step: Step, n: nat, m: nat)
    requires Inv(sys) && Unasked(sys, n, m) && FreshStep(step, n, m)
    ensures Unasked(Next(sys, step), n, m)
  {
    hide SI.Inv, RI.Inv, Linked, SenderHonest, S.Step, R.Step;
    match step {
      case SenderActs(i) => if !i.Arrives? { ST.LocalWait(sys.snd, i); }
      case ReceiverActs(i) => if !i.Arrives? { RT.LocalNoSYN(sys.rcv, i); }
      case ReachesReceiver(k, ce, a) =>
      case ReachesSender(k, c) => if k < |sys.rcv.out| { ST.ArrivalWait(sys.snd, sys.rcv.out[k], c); }
    }
  }

  lemma DeafStays(sys: System, step: Step, n: nat, m: nat, una: int)
    requires Inv(sys) && Deaf(sys, m, una) && FreshStep(step, n, m)
    ensures Deaf(Next(sys, step), m, una)
  {
    hide SI.Inv, RI.Inv, Linked, SenderHonest, S.Step, R.Step, R.HandlePacket, S.HandlePacket, RT.FINSpent;
    NextInv(sys, step);
    NotAtTheEnd(sys, una);
    match step {
      case SenderActs(i) => if !i.Arrives? { ST.StaysShort(sys.snd, i); }
      case ReceiverActs(i) => if !i.Arrives? { RT.LocalMutters(sys.rcv, i); MuttersDeaf(sys, step, m, una); }
      case ReachesReceiver(k, ce, a) =>
        if k < |sys.snd.out| {
          var p := sys.snd.out[k].(ce := ce);
          RT.ArrivalMutters(sys.rcv, p, a);
          ArrivesAtReceiver(sys.rcv, p, a);
          NotAtTheEnd(Next(sys, step), una);
          MuttersDeaf(sys, step, m, una);
        }
      case ReachesSender(k, c) =>
        if k < |sys.rcv.out| {
          Unheeded(sys, k, c);
        }
    }
  }

  lemma MuttersDeaf(sys: System, step: Step, m: nat, una: int)
    requires Deaf(sys, m, una) && Next(sys, step).snd == sys.snd && RT.Mutters(sys.rcv, Next(sys, step).rcv)
    ensures Deaf(Next(sys, step), m, una)
  {
    hide R.Step, S.Step, Next;
  }

  /** With bytes unconfirmed neither end has seen the sender's FIN. */
  lemma NotAtTheEnd(sys: System, una: int)
    requires Inv(sys) && sys.snd.hs.completed && Short(sys.snd, una)
    ensures !sys.snd.conn.finSent && !sys.rcv.conn.peerFIN && !sys.rcv.conn.pendingFIN && !sys.rcv.phase.Listening?
  {
    hide SI.Karn, SI.Reductions, RI.AllHonest, RI.ReportCurrent, SenderHonest;
  }

  /** The sender expects the FIN's position and drops everything behind it. */
  lemma Unheeded(sys: System, k: nat, c: S.Choices)
    requires Inv(sys) && sys.snd.hs.completed && FINMissing(sys) && k < |sys.rcv.out|
    requires !sys.rcv.out[k].flags.fin && !sys.rcv.out[k].flags.syn && sys.rcv.out[k].seqNo == sys.rcv.conn.next
    ensures S.Step(sys.snd, S.Arrives(sys.rcv.out[k], c)) == sys.snd
  {
    FINPosition(sys);
    Elsewhere(sys.snd, sys.rcv.out[k], c);
    SP.ArrivesIs(sys.snd, sys.rcv.out[k], c);
    hide SI.Inv, RI.Inv, Linked, SenderHonest;
  }

  lemma Elsewhere(s: S.State, p: Packet, c: S.Choices)
    requires s.hs.completed && !p.flags.fin && !p.flags.syn && p.seqNo != s.space.receive
    ensures S.HandlePacket(s, p, c) == s
  {
  }

  lemma HungryStays(sys: System, step: Step, n: nat, m: nat, una: int)
    requires Inv(sys) && Hungry(sys, n, una) && FreshStep(step, n, m)
    ensures Hungry(Next(sys, step), n, una)
  {
    hide SI.Inv, RI.Inv, Linked, SenderHonest, S.Step, R.Step, R.HandlePacket, ST.Spent, ST.Withholds;
    NotAtTheEnd(sys, una);
    match step {
      case SenderActs(i) => if !i.Arrives? { ST.StepWithholds(sys.snd, i); StillSized(sys.snd, i); WithholdsHungry(sys, step, n, una); }
      case ReceiverActs(i) => if !i.Arrives? { RS.LocalSteps(sys.rcv, i); }
      case ReachesReceiver(k, ce, a) =>
        if k < |sys.snd.out| {
          var p := sys.snd.out[k].(ce := ce);
          assert SS.Honest(sys.snd, sys.snd.out[k]) by { OneHonest(sys, k); }
          ByteOrBehind(sys, una);
          RT.NextStays(sys.rcv, p, a);
          ArrivesAtReceiver(sys.rcv, p, a);
        }
      case ReachesSender(k, c) =>
        if k < |sys.rcv.out| {
          ReceiverHonest(sys, sys.rcv.out[k]);
          ST.StepWithholds(sys.snd, S.Arrives(sys.rcv.out[k], c));
          StillSized(sys.snd, S.Arrives(sys.rcv.out[k], c));
          WithholdsHungry(sys, step, n, una);
        }
    }
  }

  lemma OneHonest(sys: System, k: nat)
    requires Inv(sys) && k < |sys.snd.out|
    ensures SS.Honest(sys.snd, sys.snd.out[k])
  {
    hide SI.Inv, RI.Inv, Linked, SS.Honest;
  }

  lemma ByteOrBehind(sys: System, una: int)
    requires Inv(sys) && sys.snd.hs.completed && Short(sys.snd, una) && sys.rcv.buffer.next <= una
    ensures sys.rcv.buffer.next == una
  {
    hide SI.Inv, RI.Inv, SenderHonest, RS.Within;
  }

  lemma StillSized(s: S.State, i: S.Input)
    requires SI.Inv(s)
    ensures var t := S.Step(s, i); s.stream.size <= t.stream.size && (s.hs.completed ==> t.hs.completed)
  {
    hide SI.Inv, S.Step, SS.Emitted;
    SS.StepCorrect(s, i);
  }

  lemma WithholdsHungry(sys: System, step: Step, n: nat, una: int)
    requires Hungry(sys, n, una) && Next(sys, step).rcv == sys.rcv && ST.Withholds(sys.snd, Next(sys, step).snd)
    requires var t := Next(sys, step).snd; t.hs.completed && sys.snd.stream.size <= t.stream.size
    ensures Hungry(Next(sys, step), n, una)
  {
    hide Next, ST.Spent;
    ST.SpentAfter(sys.snd, Next(sys, step).snd);
  }

  lemma SilentStays(sys: System, step: Step, n: nat, m: nat, una: int)
    requires Inv(sys) && Silent(sys, n, m, una) && FreshStep(step, n, m)
    ensures Silent(Next(sys, step), n, m, una)
  {
    hide SI.Inv, RI.Inv, Linked, SenderHonest, S.Step, R.Step, ST.Silenced, RT.FINSettled;
    match step {
      case SenderActs(i) => if !i.Arrives? { ST.LocalSilence(sys.snd, i); StillSized(sys.snd, i); }
      case ReceiverActs(i) => if !i.Arrives? { RT.LocalSettled(sys.rcv, i); }
      case ReachesReceiver(k, ce, a) =>
      case ReachesSender(k, c) =>
        if k < |sys.rcv.out| {
          ST.ResetSilence(sys.snd, sys.rcv.out[k], c);
          StillSized(sys.snd, S.Arrives(sys.rcv.out[k], c));
        }
    }
  }

  lemma StuckStays(sys: System, step: Step, n: nat, m: nat, una: int)
    requires Inv(sys) && Stuck(sys, n, m, una) && FreshStep(step, n, m)
    ensures Stuck(Next(sys, step), n, m, una)
  {
    hide Inv, Next, GaveUp, Deserted, Unasked, Deaf, Hungry, Silent, FreshStep;
    if GaveUp(sys) {
      GaveUpStays(sys, step);
    } else if Deserted(sys, m, una) {
      DesertedStays(sys, step, n, m, una);
    } else if Unasked(sys, n, m) {
      UnaskedStays(sys, step, n, m);
    } else if Deaf(sys, m, una) {
      DeafStays(sys, step, n, m, una);
    } else if Hungry(sys, n, una) {
      HungryStays(sys, step, n, m, una);
    } else {
      SilentStays(sys, step, n, m, una);
    }
  }

  lemma {:induction false} NeverDone(sys: System, more: seq<Step>, n: nat, m: nat, una: int)
    requires Inv(sys) && Stuck(sys, n, m, una) && FreshSteps(more, n, m)
    ensures !Done(RunFrom(sys, more))
    decreases |more|
  {
    hide Inv, Next, Stuck, Done, FreshStep;
    if more == [] {
      StuckFails(sys, n, m, una);
    } else {
      NextInv(sys, more[0]);
      assert FreshStep(more[0], n, m);
      StuckStays(sys, more[0], n, m, una);
      assert forall j :: 0 <= j < |more[1..]| ==> more[1..][j] == more[j + 1];
      NeverDone(Next(sys, more[0]), more[1..], n, m, una);
    }
  }

  // ---------- No tries, no success ----------

  lemma {:induction false} RunNoDelay(config: Config, steps: seq<Step>)
    requires R.ValidConfig(config.rcv)
    ensures RT.NoDelay(Run(config, steps).rcv)
    decreases |steps|
  {
    if steps != [] {
      hide Inv, Next, RT.NoDelay;
      RunNoDelay(config, steps[..|steps| - 1]);
      RunInv(config, steps[..|steps| - 1]);
      NoDelayNext(Run(config, steps[..|steps| - 1]), steps[|steps| - 1]);
    }
  }

  lemma NoDelayNext(sys: System, step: Step)
    requires Inv(sys) && RT.NoDelay(sys.rcv)
    ensures RT.NoDelay(Next(sys, step).rcv)
  {
    hide SI.Inv, RI.Inv, Linked, SenderHonest, S.Step, R.Step, RT.NoDelay;
    match step {
      case ReceiverActs(i) => RT.NoDelayStep(sys.rcv, i);
      case ReachesReceiver(k, ce, a) => if k < |sys.snd.out| { RT.NoDelayStep(sys.rcv, R.Arrives(sys.snd.out[k].(ce := ce), a)); }
      case _ =>
    }
  }

  /** Not done, and given up or without the tries: one of the ways to be stuck. */
  lemma NoTriesStuck(sys: System)
    requires Inv(sys) && Kept(sys) && RT.NoDelay(sys.rcv) && sys.snd.stream.unsent.Some? && !Done(sys)
    requires sys.snd.terminated || sys.rcv.phase.Released? || !TriesLeft(sys)
    ensures Stuck(sys, |sys.snd.out|, |sys.rcv.out|, sys.snd.space.una)
  {
    hide RI.AllHonest, RI.StreamInv, RI.ReportCurrent, SI.Karn, SI.Reductions, SenderHonest, SP.DataKept, SP.SynKept, RS.Within;
    FirstTries(sys.snd);
    FINPosition(sys);
    if !sys.snd.terminated && sys.snd.hs.completed {
      SS.NothingPending(sys.snd);
    }
  }

  /** The exact condition. If everything emitted so far is lost, the transfer can still complete
      if and only if it has, or neither end has given up and the tries it needs are left; and then
      it can over a network that delivers the rest in order and at most once. */
  lemma RecoversExactlyWithTries(config: Config, steps: seq<Step>)
    requires R.ValidConfig(config.rcv) && 1 <= config.snd.mss <= MAX_INT64 && Run(config, steps).snd.stream.unsent.Some?
    ensures var sys := Run(config, steps);
      var hopeful := Done(sys) || (!sys.snd.terminated && !sys.rcv.phase.Released? && TriesLeft(sys));
      (CanRecover(config, steps) <==> hopeful) && (CanRecoverInOrder(config, steps) <==> hopeful)
  {
    hide Inv, Kept, Run, RunFrom, TriesLeft, Stuck, RT.NoDelay, InOrder, FreshSteps, Done;
    var sys := Run(config, steps);
    RecoverFrom(config, steps);
    InOrderRecovers(config, steps);
    if Done(sys) {
      DoneNow(sys, |sys.snd.out|, |sys.rcv.out|);
    } else if !sys.snd.terminated && !sys.rcv.phase.Released? && TriesLeft(sys) {
      CanComplete(config, steps);
    } else {
      RunInv(config, steps);
      RunKept(config, steps);
      RunNoDelay(config, steps);
      NoTriesStuck(sys);
      forall more | FreshSteps(more, |sys.snd.out|, |sys.rcv.out|) ensures !Done(RunFrom(sys, more)) {
        NeverDone(sys, more, |sys.snd.out|, |sys.rcv.out|, sys.snd.space.una);
      }
      forall more ensures Run(config, steps + more) == RunFrom(sys, more) {
        Continued(config, steps, more);
      }
    }
  }

  // ---------- A dead end ----------

  lemma RunNext(config: Config, steps: seq<Step>, step: Step, longer: seq<Step>)
    requires longer == steps + [step]
    ensures Run(config, longer) == Next(Run(config, steps), step)
  {
    assert longer[..|steps|] == steps;
  }

  /** A byte was sent, repeated `tries` times, and never arrived. */
  ghost predicate Repeating(sys: System, tries: nat) {
    && Inv(sys) && SP.Busy(sys.snd) && sys.snd.space.pending != [] && sys.snd.space.oldestRetries == tries
    && sys.snd.space.una == 1 == sys.rcv.buffer.next && sys.rcv.phase.Open?
  }

  lemma {:induction false} RepeatsOn(config: Config, opening: seq<Step>, timeouts: seq<Step>)
    requires Repeating(Run(config, opening), 0) && |timeouts| <= MAX_RETRANSMISSIONS
    requires forall j :: 0 <= j < |timeouts| ==> timeouts[j] == SenderActs(S.DataTimerFires)
    ensures Repeating(Run(config, opening + timeouts), |timeouts|)
    decreases |timeouts|
  {
    hide SI.Inv, RI.Inv, Linked, SenderHonest, S.Step, R.Step, Run;
    if timeouts == [] {
      assert opening + timeouts == opening;
    } else {
      var before := timeouts[..|timeouts| - 1];
      RepeatsOn(config, opening, before);
      assert opening + timeouts == (opening + before) + [SenderActs(S.DataTimerFires)];
      RunNext(config, opening + before, SenderActs(S.DataTimerFires), opening + timeouts);
      var sys := Run(config, opening + before);
      SP.RetryEffect(sys.snd);
      NextInv(sys, SenderActs(S.DataTimerFires));
    }
  }

  /** A source of one byte, and a handshake on its way. */
  ghost predicate Asking(sys: System, started: bool, waiting: bool) {
    && Inv(sys) && !sys.snd.terminated && !sys.snd.hs.completed && sys.snd.space.oldestRetries == 0
    && sys.snd.hs.started == started && sys.snd.hs.synWaiting == waiting
    && sys.snd.stream.unsent == Some(1) && sys.snd.stream.size == 1 && !sys.rcv.phase.Released?
  }

  lemma AskingStarts(config: Config, sys: System)
    requires R.ValidConfig(config.rcv) && sys == Init(config)
    ensures var t := Next(sys, SenderActs(S.DoSetSource(1))); Asking(t, false, false) && t.snd.out == [] == t.rcv.out
  {
    hide Inv, S.Step, S.Init, R.Init;
    InitInv(config);
    NextInv(sys, SenderActs(S.DoSetSource(1)));
    SourceGiven(config.snd);
    StillListening(config.rcv);
  }

  lemma SourceGiven(config: S.Config)
    ensures var t := S.Step(S.Init(config), S.DoSetSource(1));
      && !t.terminated && !t.hs.completed && !t.hs.started && !t.hs.synWaiting && t.space.oldestRetries == 0
      && t.stream.unsent == Some(1) && t.stream.size == 1 && t.out == []
  {
  }

  lemma StillListening(config: R.Config)
    ensures var r := R.Init(config); r.phase.Listening? && r.out == []
  {
  }

  lemma AskingOn(sys: System, t: System)
    requires Asking(sys, false, false) && sys.snd.out == [] && t == Next(sys, SenderActs(S.DoEstablish))
    ensures Asking(t, true, true) && t.snd.out == [] && t.rcv == sys.rcv
  {
    hide SI.Inv, RI.Inv, Linked, SenderHonest, S.Step, R.Step;
    NextInv(sys, SenderActs(S.DoEstablish));
    SP.OpeningEffects(sys.snd);
  }

  lemma AskingAloud(sys: System, t: System)
    requires Asking(sys, true, true) && sys.snd.out == [] && t == Next(sys, SenderActs(S.SynSendFires))
    ensures Asking(t, true, false) && |t.snd.out| == 1 && SP.IsSyn(t.snd.out[0]) && t.rcv == sys.rcv
  {
    hide SI.Inv, RI.Inv, Linked, SenderHonest, S.Step, R.Step;
    NextInv(sys, SenderActs(S.SynSendFires));
    SP.OpeningEffects(sys.snd);
  }

  lemma Answered(sys: System)
    requires Asking(sys, true, false) && Kept(sys) && |sys.snd.out| == 1 && SP.IsSyn(sys.snd.out[0]) && sys.rcv.out == []
    ensures var t := Next(sys, ReachesReceiver(0, false, RG.WILLING));
      Asking(t, true, false) && t.rcv.phase.Open? && |t.rcv.out| == 1 && t.rcv.out[0].flags.syn && t.rcv.buffer.next == 1
  {
    hide SI.Inv, RI.Inv, Linked, SenderHonest, S.Step, R.Step, SP.DataKept, SP.SynKept, SP.Tidy;
    SynHonest(sys, 0);
    RG.SYNEffect(sys.rcv, sys.snd.out[0].(ce := false));
    var step := ReachesReceiver(0, false, RG.WILLING);
    NextInv(sys, step);
    FirstPosition(Next(sys, step));
  }

  lemma FirstPosition(sys: System)
    requires Inv(sys) && !sys.snd.hs.completed && sys.rcv.phase.Open?
    ensures sys.rcv.buffer.next == 1
  {
    hide SI.Karn, SI.Reductions, SI.ClosingAgrees, SI.Armed, RI.AllHonest, RI.ReportCurrent, SenderHonest;
  }

  /** The first byte leaves, and the receiver waits for it. */
  lemma Sent(sys: System)
    requires Asking(sys, true, false) && Kept(sys) && sys.rcv.phase.Open? && sys.rcv.buffer.next == 1
    requires |sys.rcv.out| == 1 && sys.rcv.out[0].flags.syn && 1 <= sys.snd.config.mss <= MAX_INT64
    ensures var t := Next(sys, ReachesSender(0, SP.BENIGN));
      Repeating(Next(t, SenderActs(S.SendFires(None, 0))), 0)
  {
    hide SI.Inv, RI.Inv, Linked, SenderHonest, S.Step, R.Step, SP.DataKept, SP.SynKept, SP.Tidy, Open;
    var answer := ReachesSender(0, SP.BENIGN);
    SynAckHonest(sys, 0);
    SP.SynAckEffect(sys.snd, sys.rcv.out[0]);
    StillSized(sys.snd, S.Arrives(sys.rcv.out[0], SP.BENIGN));
    ConfigSame(sys);
    NextInv(sys, answer);
    KeptNext(sys, answer);
    var t := Next(sys, answer);
    FirstByte(t);
    ST.NoSuccess(t.snd);
    StillBusy(t);
    SP.NothingPendingUnsent(t.snd);
    SP.SendEffect(t.snd);
    NextInv(t, SenderActs(S.SendFires(None, 0)));
  }

  lemma FirstByte(sys: System)
    requires Inv(sys) && sys.snd.hs.completed && sys.rcv.buffer.next == 1
    ensures sys.snd.space.una == 1
  {
    hide SI.Karn, SI.Reductions, SI.ClosingAgrees, SI.Armed, RI.Inv, SenderHonest, RS.Within;
  }

  lemma Opened(config: Config, steps: seq<Step>)
    requires R.ValidConfig(config.rcv) && 1 <= config.snd.mss <= MAX_INT64
    requires steps == [SenderActs(S.DoSetSource(1)), SenderActs(S.DoEstablish), SenderActs(S.SynSendFires),
                       ReachesReceiver(0, false, RG.WILLING), ReachesSender(0, SP.BENIGN), SenderActs(S.SendFires(None, 0))]
    ensures Repeating(Run(config, steps), 0)
  {
    hide *;
    RunStarts(config, steps[..0]);
    RunNext(config, steps[..0], steps[0], steps[..1]);
    AskingStarts(config, Run(config, steps[..0]));
    RunNext(config, steps[..1], steps[1], steps[..2]);
    AskingOn(Run(config, steps[..1]), Run(config, steps[..2]));
    RunNext(config, steps[..2], steps[2], steps[..3]);
    AskingAloud(Run(config, steps[..2]), Run(config, steps[..3]));
    RunNext(config, steps[..3], steps[3], steps[..4]);
    RunKept(config, steps[..3]);
    Answered(Run(config, steps[..3]));
    RunNext(config, steps[..4], steps[4], steps[..5]);
    RunNext(config, steps[..5], steps[5], steps);
    RunKept(config, steps[..4]);
    RunConfig(config, steps[..4]);
    Sent(Run(config, steps[..4]));
  }

  lemma RunStarts(config: Config, steps: seq<Step>)
    requires steps == []
    ensures Run(config, steps) == Init(config)
  {
  }

  /** One byte, lost with all its repeats: neither end has given up, yet the next timeout is the
      last, and nothing that does not bring a lost packet back completes the transfer. */
  lemma DeadEnd(config: Config, opening: seq<Step>, timeouts: seq<Step>)
    requires R.ValidConfig(config.rcv) && 1 <= config.snd.mss <= MAX_INT64
    requires opening == [SenderActs(S.DoSetSource(1)), SenderActs(S.DoEstablish), SenderActs(S.SynSendFires),
                         ReachesReceiver(0, false, RG.WILLING), ReachesSender(0, SP.BENIGN), SenderActs(S.SendFires(None, 0))]
    requires |timeouts| == MAX_RETRANSMISSIONS && forall j :: 0 <= j < |timeouts| ==> timeouts[j] == SenderActs(S.DataTimerFires)
    ensures var sys := Run(config, opening + timeouts);
      && !sys.snd.terminated && sys.rcv.phase.Open? && !Done(sys) && !CanRecover(config, opening + timeouts)
      && Next(sys, SenderActs(S.DataTimerFires)).snd.terminated
  {
    hide Run, Next, CanRecover, Done, Inv, S.Step;
    Opened(config, opening);
    RepeatsOn(config, opening, timeouts);
    var sys := Run(config, opening + timeouts);
    RecoversExactlyWithTries(config, opening + timeouts);
    LastTry(sys);
  }

  lemma LastTry(sys: System)
    requires Repeating(sys, MAX_RETRANSMISSIONS)
    ensures !sys.snd.terminated && !Done(sys) && !TriesLeft(sys) && sys.snd.stream.unsent.Some?
    ensures Next(sys, SenderActs(S.DataTimerFires)).snd.terminated
  {
    hide SI.Karn, SI.Reductions, RI.Inv, Linked, SenderHonest;
  }
}
