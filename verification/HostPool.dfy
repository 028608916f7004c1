/** The host as the source keeps it: fields updated in place, proved equal to `Host`. */
module HostPool {
  import opened Basics
  import H = Host
  import Fifo

  class Pool {
    const config: H.Config
    const createdAt: int
    const endTime: int
    var now: int
    var nextEvent: nat
    const queue: Fifo.Queue<H.Waiting>
    var active: map<nat, H.Running>
    var stopped: bool
    var accountedAt: int
    var stats: H.Stats
    var callbacks: seq<nat>
    ghost var busyIntegral: int
    ghost var queueIntegral: int
    ghost var discardedWait: int

    ghost predicate Coherent()
      reads this, queue
    {
      queue.Valid()
    }

    /** What holds between two events. */
    ghost predicate Valid()
      reads this, queue
    {
      Coherent() && H.Inv(Value())
    }

    ghost function Value(): H.State
      reads this, queue
      requires Coherent()
    {
      H.State(config, createdAt, endTime, now, nextEvent, queue.Waiting(), active, stopped, accountedAt,
              stats, callbacks, busyIntegral, queueIntegral, discardedWait)
    }

    /** Rejects a configuration whose counters could overflow before `endTime`. */
    constructor (config: H.Config, now: int, endTime: int)
      requires H.Validate(config, endTime - now)
      ensures Valid() && fresh(queue) && Value() == H.Init(config, now, endTime)
    {
      this.config, createdAt, this.endTime, this.now := config, now, endTime, now;
      nextEvent, active, stopped, accountedAt := 0, map[], false, now;
      stats, callbacks := H.Stats(0, 0, 0, 0, 0, 0, 0, 0, 0, 0), [];
      busyIntegral, queueIntegral, discardedWait := 0, 0, 0;
      queue := new Fifo.Queue(H.Waiting(0, 0));
      new;
      H.InitInv(config, now, endTime);
    }

    method AccountBusyTime()
      requires Coherent()
      modifies this`stats, this`accountedAt
      ensures Coherent() && Value() == H.Accounted(old(Value()))
    {
      stats := stats.(busyTime := stats.busyTime + (now - accountedAt) * |active|);
      accountedAt := now;
    }

    method Start(work: H.Waiting)
      requires Coherent()
      modifies this
      ensures Coherent() && Value() == H.Started(old(Value()), work)
    {
      AccountBusyTime();
      var wait := now - work.queuedAt;
      stats := stats.(started := stats.started + 1, queueWait := stats.queueWait + wait,
                      maxWait := Max(stats.maxWait, wait));
      active := active[work.number := H.Running(now + config.cost, nextEvent, config.cost <= endTime - now)];
      nextEvent := nextEvent + 1;
    }

    method Submit() returns (accepted: bool)
      requires Valid()
      modifies this, queue
      ensures Valid() && (Value(), accepted) == H.Submitted(old(Value()))
      ensures accepted <==>
                !old(stopped) && (config.cost == 0 || |old(active)| < config.cores || |old(queue.Waiting())| < config.capacity)
      ensures stats.accepted == old(stats.accepted) + (if accepted then 1 else 0)
      ensures stats.dropped == old(stats.dropped) + (if accepted || old(stopped) then 0 else 1)
    {
      hide H.Inv;
      H.SubmitKeeps(Value());
      if stopped {
        return false;
      }
      stats := stats.(offered := stats.offered + 1);
      var work := H.Waiting(stats.accepted, now);
      if config.cost == 0 {
        stats := stats.(accepted := stats.accepted + 1, started := stats.started + 1, processed := stats.processed + 1);
        callbacks := callbacks + [work.number];
        return true;
      }
      if |active| < config.cores {
        stats := stats.(accepted := stats.accepted + 1);
        Start(work);
        return true;
      }
      var queued := |queue.slots| - queue.head;
      if queued >= config.capacity {
        stats := stats.(dropped := stats.dropped + 1);
        return false;
      }
      stats := stats.(accepted := stats.accepted + 1, maxQueued := Max(stats.maxQueued, queued + 1));
      queue.Push(work);
      return true;
    }

    /** One completion event. */
    method Complete(number: nat)
      requires Valid() && (number in active ==> H.Enabled(Value(), H.Complete(number)))
      modifies this, queue
      ensures Valid() && Value() == H.Completed(old(Value()), number)
    {
      hide H.Inv;
      if number !in active {
        return;
      }
      H.CompleteKeeps(Value(), number);
      AccountBusyTime();
      active := active - {number};
      stats := stats.(processed := stats.processed + 1);
      if queue.head < |queue.slots| {
        var next := queue.Pop();
        Start(next);
      }
      callbacks := callbacks + [number];
    }

    method DiscardPending()
      requires Valid()
      modifies this, queue
      ensures Valid() && Value() == H.Discarded(old(Value()))
    {
      hide H.Inv;
      H.DiscardKeeps(Value());
      if stopped {
        return;
      }
      AccountBusyTime();
      var queued := |queue.slots| - queue.head;
      if queued > 0 {
        stats := stats.(maxWait := Max(stats.maxWait, now - queue.slots[queue.head].queuedAt));
      }
      stats := stats.(discarded := stats.discarded + |active| + queued);
      discardedWait := discardedWait + H.WaitSum(queue.Waiting(), now);
      active := map[];
      queue.Clear();
    }

    method Stop()
      requires Valid()
      modifies this, queue
      ensures Valid() && Value() == H.StoppedHost(old(Value()))
    {
      hide H.Inv;
      H.DiscardKeeps(Value());
      if !stopped {
        DiscardPending();
        stopped := true;
      }
    }

    /** The engine's clock moves between two events. */
    method Elapse(to: int)
      requires Valid() && H.Enabled(Value(), H.Elapse(to))
      modifies this
      ensures Valid() && Value() == H.Elapsed(old(Value()), to)
    {
      hide H.Inv;
      H.ElapseKeeps(Value(), to);
      busyIntegral := busyIntegral + (to - now) * |active|;
      queueIntegral := queueIntegral + (to - now) * |queue.Waiting()|;
      now := to;
    }

    /** Busy time with the open interval included, read without changing anything. */
    method BusyTime() returns (busy: int)
      requires Valid()
      ensures busy == busyIntegral
    {
      busy := stats.busyTime + (now - accountedAt) * |active|;
    }

    // ---------- Whole runs ----------

    /** One event that the engine may fire now. */
    method Perform(step: H.Step)
      requires Valid() && H.Enabled(Value(), step)
      modifies this, queue
      ensures Valid() && Value() == H.Next(old(Value()), step)
    {
      hide H.Inv, H.Submitted, H.Completed, H.Discarded, H.StoppedHost, H.Elapsed;
      match step
      case Submit => var accepted := Submit();
      case Complete(number) => Complete(number);
      case Elapse(to) => Elapse(to);
      case Discard => DiscardPending();
      case Stop => Stop();
    }

    /** Any run of a new host: callbacks in the order of acceptance, no waiter beside a free core,
        and everything accepted accounted for. */
    method Play(steps: seq<H.Step>)
      requires Valid() && H.Validate(config, endTime - createdAt) && Value() == H.Init(config, createdAt, endTime)
      requires forall k :: 0 <= k < |steps| ==> H.Enabled(H.Run(config, createdAt, endTime, steps[..k]), steps[k])
      modifies this, queue
      ensures Valid() && Value() == H.Run(config, createdAt, endTime, steps)
      ensures queue.Waiting() != [] ==> |active| == config.cores
      ensures stats.accepted == stats.processed + stats.discarded + |active| + |queue.Waiting()|
      ensures |callbacks| == stats.processed
      ensures forall i, j :: 0 <= i < j < |callbacks| ==> callbacks[i] < callbacks[j]
    {
      hide H.Inv, H.Next, H.Init, H.Enabled;
      for k := 0 to |steps|
        invariant Valid() && Value() == H.Run(config, createdAt, endTime, steps[..k])
      {
        assert steps[..k + 1][..k] == steps[..k];
        Perform(steps[k]);
      }
      assert steps[..|steps|] == steps;
      H.FIFOMultiServer(config, createdAt, endTime, steps);
    }
  }
}
