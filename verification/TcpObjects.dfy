/** Both objects of one connection and the network between them: whatever is proved about every
    run of `TcpSystem` holds of the fields these objects update in place. */
module TcpObjects {
  import opened Basics
  import opened Packets
  import opened TcpSystem
  import S = Sender
  import SI = SenderSafety
  import R = Receiver
  import RI = ReceiverSafety
  import RB = ReceiveBuffer
  import SenderObject
  import ReceiverObject

  class Pair {
    const sender: SenderObject.Sender
    const receiver: ReceiverObject.ReceiveConnection

    ghost predicate Coherent()
      reads this, sender, sender.pending, receiver, receiver.receiver, receiver.report
    {
      sender.Coherent() && receiver.Coherent()
    }

    ghost function Value(): System
      reads this, sender, sender.pending, receiver, receiver.receiver, receiver.report, receiver.report.sackRecent
      requires Coherent()
    {
      System(sender.Value(), receiver.Value())
    }

    ghost predicate Valid()
      reads this, sender, sender.pending, receiver, receiver.receiver, receiver.report, receiver.report.sackRecent
    {
      Coherent() && Inv(Value())
    }

    constructor (config: Config)
      requires R.ValidConfig(config.rcv)
      ensures Valid() && Value() == Init(config)
      ensures fresh(sender) && fresh(sender.pending)
      ensures fresh(receiver) && fresh(receiver.receiver) && fresh(receiver.report)
    {
      hide SI.Inv, RI.Inv, Inv;
      sender := new SenderObject.Sender(config.snd);
      receiver := new ReceiverObject.ReceiveConnection(config.rcv);
      new;
      InitInv(config);
    }

    lemma EachValid()
      requires Valid()
      ensures sender.Valid() && receiver.Valid()
    {
      hide SI.Inv, RI.Inv, Linked, SenderHonest;
    }

    /** One local event at either end, or one packet that the network delivers. */
    method Advance(step: Step)
      requires Valid()
      modifies sender, sender.pending, receiver, receiver.receiver, receiver.report
      ensures Valid() && Value() == Next(old(Value()), step)
    {
      hide SI.Inv, RI.Inv, Inv, S.Step, R.Step;
      EachValid();
      NextInv(Value(), step);
      match step
      case SenderActs(i) =>
        if !i.Arrives? {
          sender.Perform(i);
        }
      case ReceiverActs(i) =>
        if !i.Arrives? {
          receiver.Perform(i);
        }
      case ReachesReceiver(k, ce, admission) =>
        if k < |sender.out| {
          receiver.Perform(R.Arrives(sender.out[k].(ce := ce), admission));
        }
      case ReachesSender(k, choices) =>
        if k < |receiver.out| {
          sender.Perform(S.Arrives(receiver.out[k], choices));
        }
    }

    /** Any run of a new pair over a network that loses, repeats, delays and reorders: the counters
        both ends keep are ordered, and success or a graceful end means every byte arrived. */
    method Play(config: Config, steps: seq<Step>)
      requires R.ValidConfig(config.rcv) && Valid() && Value() == Init(config)
      modifies sender, sender.pending, receiver, receiver.receiver, receiver.report
      ensures Valid() && Value() == Run(config, steps)
      ensures sender.stream.acknowledged <= receiver.receivedBytes <= sender.stream.size
      ensures sender.stream.transfer.Succeeded? || sender.conn.outcome.Graceful? || receiver.conn.outcome.Graceful? ==>
                receiver.receivedBytes == sender.stream.size
    {
      hide SI.Inv, RI.Inv, Inv, Next, Init;
      for k := 0 to |steps|
        invariant Valid() && Value() == Run(config, steps[..k])
      {
        assert steps[..k + 1][..k] == steps[..k];
        Advance(steps[k]);
      }
      assert steps[..|steps|] == steps;
      Outcome(config, steps);
    }
  }

  lemma Outcome(config: Config, steps: seq<Step>)
    requires R.ValidConfig(config.rcv)
    ensures var sys := Run(config, steps);
      && sys.snd.stream.acknowledged <= sys.rcv.received <= sys.snd.stream.size
      && (sys.snd.stream.transfer.Succeeded? || sys.snd.conn.outcome.Graceful? || sys.rcv.conn.outcome.Graceful? ==>
            sys.rcv.received == sys.snd.stream.size)
  {
    hide Run;
    Delivery(config, steps);
    var sys := Run(config, steps);
    if sys.snd.conn.outcome.Graceful? || sys.rcv.conn.outcome.Graceful? {
      GracefulMeansComplete(config, steps);
    }
  }
}
