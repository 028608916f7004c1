/** The controller and the owner's loop as the source keeps them: fields under one lock, and the
    owner's local variables, proved equal to the protocol of `RunAdmission`. */
module RunController {
  import opened Basics
  import opened RunAdmission

  class RunControl {
    var commands: seq<Command>
    var starts: seq<nat>
    var stops: nat
    var serviceEnded: bool
    var nextRunID: nat
    var current: Option<Record>
    var reserved: Option<nat>
    var cancelled: set<nat>
    var stopping: bool

    ghost function Value(): Controller
      reads this
    {
      Controller(commands, starts, stops, serviceEnded, nextRunID, current, reserved, cancelled, stopping)
    }

    /** Room for a stop, and nothing queued without a reservation. */
    ghost predicate Valid()
      reads this
    {
      StopsFit(Value()) && QueuesCurrent(Value())
    }

    constructor ()
      ensures Valid() && Value() == FRESH_CONTROLLER
    {
      commands, starts, stops, serviceEnded, nextRunID := [], [], 0, false, 0;
      current, reserved, cancelled, stopping := None, None, {}, false;
    }

    /** A send on the stop channel, whose one slot must be free or the lock holder blocks. */
    method SendStop()
      requires stops == 0
      modifies this`stops
      ensures stops == old(stops) + 1
    {
      stops := stops + 1;
    }

    method CancelRun()
      modifies this`cancelled
      ensures cancelled == if reserved.Some? then old(cancelled) + {reserved.value} else old(cancelled)
    {
      if reserved.Some? {
        cancelled := cancelled + {reserved.value};
      }
    }

    method SubmitStop()
      requires Valid()
      modifies this
      ensures Valid() && Value() == StopSubmitted(old(Value()))
    {
      if !stopping {
        stopping := true;
        CancelRun();
        SendStop();
      }
    }

    /** The start slot is never full where the code would have to give the reservation back. */
    method EnqueueStart(document: Option<nat>) returns (reply: Reply)
      modifies this
      ensures (Value(), reply) == StartEnqueued(old(Value()), document)
      ensures old(Valid()) ==> Valid() && !reply.QueueFull?
      ensures reply.ServiceClosed? <==> old(serviceEnded)
      ensures reply.Busy? <==> !old(serviceEnded) && (old(reserved).Some? || old(stopping))
      ensures reply.IDLimit? <==> !old(serviceEnded) && old(reserved).None? && !old(stopping) && old(nextRunID) == MAX_UINT64
      ensures reply.Started? ==> reply == Started(old(nextRunID) + 1) && reserved == Some(reply.run)
    {
      if serviceEnded {
        return ServiceClosed;
      }
      if reserved.Some? || stopping {
        return Busy;
      }
      if nextRunID == MAX_UINT64 {
        return IDLimit;
      }
      var run := nextRunID + 1;
      reserved := Some(run);
      if |starts| < 1 {
        starts := starts + [run];
        nextRunID := nextRunID + 1;
        if document.Some? {
          current := Some(Record(run, Accepted, document.value));
        }
        return Started(run);
      }
      CancelRun();
      reserved := None;
      return QueueFull;
    }

    method SubmitCommand(payload: nat) returns (reply: Reply)
      requires Valid()
      modifies this
      ensures Valid() && (Value(), reply) == CommandSubmitted(old(Value()), payload)
      ensures reply == if reserved.None? || stopping then NotStarted else if |old(commands)| < 64 then Ok else QueueFull
      ensures commands == old(commands) + if reply.Ok? then [Command(reserved.value, payload)] else []
    {
      if reserved.None? || stopping {
        return NotStarted;
      }
      if |commands| >= COMMAND_CAPACITY {
        return QueueFull;
      }
      commands := commands + [Command(reserved.value, payload)];
      return Ok;
    }

    /** Cancels the context and drains both queues before the lock is released. */
    method FinishRun()
      requires Valid()
      modifies this
      ensures Valid() && Value() == RunFinished(old(Value()))
    {
      CancelRun();
      reserved := None;
      while |commands| > 0
        invariant Value() == RunFinished(old(Value())).(commands := commands, starts := old(starts))
        decreases |commands|
      {
        commands := commands[1..];
      }
      while |starts| > 0
        invariant Value() == RunFinished(old(Value())).(starts := starts)
        decreases |starts|
      {
        starts := starts[1..];
      }
    }

    method AcknowledgeStop()
      requires Valid()
      modifies this
      ensures Valid() && Value() == StopAcknowledged(old(Value()))
    {
      if stops > 0 {
        stops := stops - 1;
      }
      stopping := false;
    }

    method SetRunStatus(run: nat, status: RunStatus)
      requires Valid()
      modifies this`current
      ensures Valid() && Value() == StatusSet(old(Value()), run, status)
    {
      if current.Some? && current.value.run == run {
        current := Some(current.value.(status := status));
      }
    }
  }

  /** The whole service: the controller, the owner's program counter and local context. */
  class Session {
    const control: RunControl
    var owner: Owner
    var context: Option<nat>
    ghost var accepted: seq<nat>
    ghost var executed: seq<nat>
    ghost var doomed: seq<nat>
    ghost var completed: seq<nat>
    ghost var applied: seq<(Command, nat)>

    ghost function Value(): System
      reads this, control
    {
      System(control.Value(), owner, context, accepted, executed, doomed, completed, applied)
    }

    ghost predicate Valid()
      reads this, control
    {
      Inv(Value())
    }

    constructor ()
      ensures Valid() && fresh(control) && Value() == FRESH
    {
      owner, context := Waiting, None;
      accepted, executed, doomed, completed, applied := [], [], [], [], [];
      control := new RunControl();
      new;
      RunFresh([]);
      RunInv([]);
    }

    predicate ContextHasEnded()
      reads this, control
    {
      context.Some? && (control.serviceEnded || context.value in control.cancelled)
    }

    lemma ControlValid()
      requires Valid()
      ensures control.Valid()
    {
      hide Histories, DoomedNeverRun, RecordTruthful, StopsHeeded, OwnerAgrees;
    }

    /** One action of a submitter. */
    method Submit(step: Step)
      requires control.Valid() && BySubmitter(step)
      modifies this`accepted, control
      ensures Value() == Next(old(Value()), step)
    {
      match step
      case SubmitStop(gone) =>
        if !gone {
          control.SubmitStop();
        }
      case SubmitStart(gone, document) =>
        if !gone {
          var reply := control.EnqueueStart(document);
          if reply.Started? {
            accepted := accepted + [reply.run];
          }
        }
      case SubmitCommand(gone, payload) =>
        if !gone {
          var _ := control.SubmitCommand(payload);
        }
      case CloseService => control.serviceEnded := true;
    }

    /** The owner's actions up to recording the run. */
    method Prologue(step: Step)
      requires control.Valid() && BeforeLoop(step)
      modifies this, control
      ensures Value() == Next(old(Value()), step)
    {
      match step {
        case TakeStop =>
          if owner.Waiting? && control.stops > 0 {
            control.stops := control.stops - 1;
            owner := Forgetting;
          }
        case TakeStart =>
          if owner.Waiting? && |control.starts| > 0 {
            owner := Took(control.starts[0]);
            control.starts := control.starts[1..];
          }
        case FetchContext =>
          if owner.Took? {
            context, owner := control.reserved, Fetched(owner.run);
          }
        case CheckContext =>
          if owner.Fetched? {
            owner := if ContextHasEnded() then Forgetting else Checked(owner.run);
          }
        case Prepare(valid) =>
          if owner.Checked? {
            owner := if valid then Prepared(owner.run) else Rejected(owner.run);
          }
        case Recheck =>
          if owner.Prepared? {
            owner := if ContextHasEnded() then Forgetting else Cleared(owner.run);
          }
        case Begin(document) =>
          if owner.Cleared? {
            if document.Some? {
              control.current := Some(Record(owner.run, Running, document.value));
            } else {
              control.SetRunStatus(owner.run, Running);
            }
            executed := executed + [owner.run];
            if ContextHasEnded() {
              doomed := doomed + [owner.run];
            }
            owner := Entering(owner.run);
          }
      }
    }

    /** The owner's actions inside the run and after it. */
    method Epilogue(step: Step)
      requires control.Valid() && !BySubmitter(step) && !BeforeLoop(step)
      modifies this, control
      ensures Value() == Next(old(Value()), step)
    {
      match step {
        case CheckLoop =>
          if owner.Entering? {
            owner := if ContextHasEnded() then Returned(owner.run) else Looping(owner.run);
          }
        case ApplyCommand =>
          if owner.Looping? && |control.commands| > 0 {
            applied := applied + [(control.commands[0], owner.run)];
            control.commands := control.commands[1..];
          }
        case NextRound =>
          if owner.Looping? {
            owner := Entering(owner.run);
          }
        case ReturnFromRun =>
          if owner.Looping? {
            owner := Returned(owner.run);
          }
        case CheckEnd =>
          if owner.Returned? {
            owner := if ContextHasEnded() then Forgetting else Judged(owner.run);
          }
        case Conclude(failed) =>
          if owner.Judged? {
            control.SetRunStatus(owner.run, if failed then Failed else Finished);
            completed := completed + [owner.run];
            owner := Completing(owner.run);
          }
        case Release =>
          if owner.Rejected? || owner.Completing? {
            control.FinishRun();
            owner := Waiting;
          } else if owner.Releasing? {
            control.FinishRun();
            owner := Acknowledging;
          }
        case Forget =>
          if owner.Forgetting? {
            control.current := None;
            owner := Releasing;
          }
        case Acknowledge =>
          if owner.Acknowledging? {
            control.AcknowledgeStop();
            owner := Waiting;
          }
        case Exit => owner := Exited;
      }
    }

    /** Any one action, of a submitter or of the owner. */
    method Perform(step: Step)
      requires Valid()
      modifies this, control
      ensures Valid() && Value() == Next(old(Value()), step)
    {
      hide Inv, Next;
      ControlValid();
      StepKeeps(Value(), step);
      if step.SubmitStop? || step.SubmitStart? || step.SubmitCommand? || step.CloseService? {
        Submit(step);
      } else if BeforeLoop(step) {
        Prologue(step);
      } else {
        Epilogue(step);
      }
    }

    /** Every interleaving from the start, with what holds at its end. */
    method Play(steps: seq<Step>)
      requires Value() == FRESH && Valid()
      modifies this, control
      ensures Valid() && Value() == RunAdmission.Run(steps)
      ensures !control.stopping ==> control.stops == 0
      ensures control.reserved.None? ==> control.starts == [] && control.commands == []
    {
      hide Inv, Next;
      RunFresh([]);
      for k := 0 to |steps|
        invariant Valid() && Value() == RunAdmission.Run(steps[..k])
      {
        RunNext(steps[..k], steps[k], steps[..k + 1]);
        Perform(steps[k]);
      }
      assert steps[..|steps|] == steps;
      LockNeverBlocks(steps, None);
    }
  }
}
