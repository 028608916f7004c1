/** The start and stop protocol: any number of submitters race one owner.

    Every controller operation runs under its lock, so it is one atomic function on
    `Controller`. The owner's loop is a program counter whose steps are its own lock-protected
    calls and channel receives; between any two of them submitters may act. */
module RunAdmission {
  import opened Basics

  const COMMAND_CAPACITY: nat := 64

  /** A queued runtime command and, for the statements below, the run it was accepted for. */
  datatype Command = Command(run: nat, payload: nat)

  datatype RunStatus = Accepted | Running | Finished | Failed

  datatype Record = Record(run: nat, status: RunStatus, document: nat)

  /** `reserved` is the run whose context is installed; `cancelled` the contexts cancelled so far. */
  datatype Controller = Controller(
    commands: seq<Command>,
    starts: seq<nat>,
    stops: nat,
    closed: bool,
    nextRunID: nat,
    current: Option<Record>,
    reserved: Option<nat>,
    cancelled: set<nat>,
    stopping: bool)

  const FRESH_CONTROLLER := Controller([], [], 0, false, 0, None, None, {}, false)

  datatype Reply = Ok | Started(run: nat) | RequestCancelled | Busy | QueueFull | ServiceClosed | IDLimit | NotStarted

  // ---------- Operations under the lock ----------

  /** The context of run `r` has ended: its own cancellation, or the service's. */
  predicate Ended(c: Controller, r: nat) {
    c.closed || r in c.cancelled
  }

  function StopSubmitted(c: Controller): Controller {
    if c.stopping then c else
      c.(stopping := true, stops := c.stops + 1,
         cancelled := if c.reserved.Some? then c.cancelled + {c.reserved.value} else c.cancelled)
  }

  function StartEnqueued(c: Controller, document: Option<nat>): (Controller, Reply) {
    if c.closed then (c, ServiceClosed)
    else if c.reserved.Some? || c.stopping then (c, Busy)
    else if c.nextRunID == MAX_UINT64 then (c, IDLimit)
    else
      var run := c.nextRunID + 1;
      if |c.starts| >= 1 then (c.(cancelled := c.cancelled + {run}), QueueFull)
      else
        (c.(starts := c.starts + [run], nextRunID := run, reserved := Some(run),
            current := if document.Some? then Some(Record(run, Accepted, document.value)) else c.current), Started(run))
  }

  function CommandSubmitted(c: Controller, payload: nat): (Controller, Reply) {
    if c.reserved.None? || c.stopping then (c, NotStarted)
    else if |c.commands| >= COMMAND_CAPACITY then (c, QueueFull)
    else (c.(commands := c.commands + [Command(c.reserved.value, payload)]), Ok)
  }

  function RunFinished(c: Controller): Controller {
    c.(cancelled := if c.reserved.Some? then c.cancelled + {c.reserved.value} else c.cancelled,
       reserved := None, commands := [], starts := [])
  }

  function StopAcknowledged(c: Controller): Controller {
    c.(stops := if c.stops > 0 then c.stops - 1 else 0, stopping := false)
  }

  function StatusSet(c: Controller, run: nat, status: RunStatus): Controller {
    if c.current.Some? && c.current.value.run == run then c.(current := Some(c.current.value.(status := status))) else c
  }

  // ---------- The owner ----------

  /** Where the owner's loop stands between two of its actions. Each context check is an action
      of its own: submitters may take the lock between a check and what follows it. */
  datatype Owner =
    | Waiting                 // about to select among service end, stops and starts
    | Took(run: nat)          // received a start, about to fetch its context
    | Fetched(run: nat)       // about to check the context
    | Checked(run: nat)       // its context was alive, preparing
    | Prepared(run: nat)      // prepared, about to check the context again
    | Cleared(run: nat)       // its context was alive again, about to record the run
    | Entering(run: nat)      // inside the run, about to check the context at the head of its loop
    | Looping(run: nat)       // inside one round of the loop
    | Returned(run: nat)      // the run returned, about to check why
    | Judged(run: nat)        // its context was alive, about to record how it ended
    | Rejected(run: nat)      // the configuration was invalid, about to release the run
    | Completing(run: nat)    // finished or failed, about to release the run
    | Forgetting              // clearing: about to drop the record
    | Releasing               // clearing: about to release the run
    | Acknowledging           // clearing: about to acknowledge
    | Exited

  /** `context` is the owner's local copy of the run's context. The histories: runs accepted and
      recorded as running, those of them recorded with an ended context, those recorded as
      finished or failed, and the commands applied with the run they were applied in. */
  datatype System = System(
    control: Controller,
    owner: Owner,
    context: Option<nat>,
    accepted: seq<nat>,
    executed: seq<nat>,
    doomed: seq<nat>,
    completed: seq<nat>,
    applied: seq<(Command, nat)>)

  const FRESH := System(FRESH_CONTROLLER, Waiting, None, [], [], [], [], [])

  predicate Clearing(o: Owner) {
    o.Forgetting? || o.Releasing? || o.Acknowledging?
  }

  /** The run the owner holds, from receiving its start to releasing it. */
  function Held(o: Owner): Option<nat> {
    match o
    case Took(r) => Some(r)
    case Fetched(r) => Some(r)
    case Checked(r) => Some(r)
    case Prepared(r) => Some(r)
    case Cleared(r) => Some(r)
    case Entering(r) => Some(r)
    case Looping(r) => Some(r)
    case Returned(r) => Some(r)
    case Judged(r) => Some(r)
    case Rejected(r) => Some(r)
    case Completing(r) => Some(r)
    case _ => None
  }

  /** The context the owner fetched has ended. */
  predicate ContextEnded(s: System) {
    s.context.Some? && Ended(s.control, s.context.value)
  }

  datatype Step =
    | SubmitStop(requestCancelled: bool)
    | SubmitStart(requestCancelled: bool, document: Option<nat>)
    | SubmitCommand(requestCancelled: bool, payload: nat)
    | CloseService
    | TakeStop
    | TakeStart
    | FetchContext
    | CheckContext
    | Prepare(valid: bool)
    | Recheck
    | Begin(document: Option<nat>)
    | CheckLoop
    | ApplyCommand
    | NextRound
    | ReturnFromRun
    | CheckEnd
    | Conclude(failed: bool)
    | Release
    | Forget
    | Acknowledge
    | Exit

  /** The run is recorded as running, whatever became of its context since the last check. */
  function Begun(s: System, run: nat, document: Option<nat>): System {
    var c := s.control;
    s.(control := if document.Some? then c.(current := Some(Record(run, Running, document.value))) else StatusSet(c, run, Running),
       owner := Entering(run), executed := s.executed + [run],
       doomed := if ContextEnded(s) then s.doomed + [run] else s.doomed)
  }

  function Next(s: System, step: Step): System {
    var c := s.control;
    match step
    case SubmitStop(gone) => if gone then s else s.(control := StopSubmitted(c))
    case SubmitStart(gone, document) =>
      if gone then s else
        var (next, reply) := StartEnqueued(c, document);
        s.(control := next, accepted := if reply.Started? then s.accepted + [reply.run] else s.accepted)
    case SubmitCommand(gone, payload) => if gone then s else s.(control := CommandSubmitted(c, payload).0)
    case CloseService => s.(control := c.(closed := true))
    case TakeStop =>
      if s.owner.Waiting? && c.stops > 0 then s.(control := c.(stops := c.stops - 1), owner := Forgetting) else s
    case TakeStart =>
      if s.owner.Waiting? && c.starts != [] then s.(control := c.(starts := c.starts[1..]), owner := Took(c.starts[0])) else s
    case FetchContext => if s.owner.Took? then s.(context := c.reserved, owner := Fetched(s.owner.run)) else s
    case CheckContext =>
      if s.owner.Fetched? then s.(owner := if ContextEnded(s) then Forgetting else Checked(s.owner.run)) else s
    case Prepare(valid) =>
      if s.owner.Checked? then s.(owner := if valid then Prepared(s.owner.run) else Rejected(s.owner.run)) else s
    case Recheck =>
      if s.owner.Prepared? then s.(owner := if ContextEnded(s) then Forgetting else Cleared(s.owner.run)) else s
    case Begin(document) => if s.owner.Cleared? then Begun(s, s.owner.run, document) else s
    case CheckLoop =>
      if s.owner.Entering? then s.(owner := if ContextEnded(s) then Returned(s.owner.run) else Looping(s.owner.run)) else s
    case ApplyCommand =>
      if s.owner.Looping? && c.commands != [] then
        s.(control := c.(commands := c.commands[1..]), applied := s.applied + [(c.commands[0], s.owner.run)])
      else s
    case NextRound => if s.owner.Looping? then s.(owner := Entering(s.owner.run)) else s
    case ReturnFromRun => if s.owner.Looping? then s.(owner := Returned(s.owner.run)) else s
    case CheckEnd =>
      if s.owner.Returned? then s.(owner := if ContextEnded(s) then Forgetting else Judged(s.owner.run)) else s
    case Conclude(failed) =>
      if s.owner.Judged? then
        s.(control := StatusSet(c, s.owner.run, if failed then Failed else Finished), owner := Completing(s.owner.run),
           completed := s.completed + [s.owner.run])
      else s
    case Release =>
      if s.owner.Rejected? || s.owner.Completing? then s.(control := RunFinished(c), owner := Waiting)
      else if s.owner.Releasing? then s.(control := RunFinished(c), owner := Acknowledging)
      else s
    case Forget => if s.owner.Forgetting? then s.(control := c.(current := None), owner := Releasing) else s
    case Acknowledge => if s.owner.Acknowledging? then s.(control := StopAcknowledged(c), owner := Waiting) else s
    case Exit => s.(owner := Exited)
  }

  function Run(steps: seq<Step>): System
    decreases |steps|
  {
    if steps == [] then FRESH else Next(Run(steps[..|steps| - 1]), steps[|steps| - 1])
  }

  // ---------- The invariant ----------

  /** The stop channel has room whenever a stop is not already pending. */
  ghost predicate StopsFit(c: Controller) {
    c.stops <= 1 && (c.stops == 1 ==> c.stopping)
  }

  /** Nothing is queued without a reservation, and only for the latest run with one. */
  ghost predicate QueuesCurrent(c: Controller) {
    && (c.reserved.None? ==> c.starts == [] && c.commands == [])
    && (c.reserved.Some? ==>
          && c.reserved.value == c.nextRunID
          && (c.starts == [] || c.starts == [c.nextRunID])
          && (forall k :: 0 <= k < |c.commands| ==> c.commands[k].run == c.nextRunID))
    && |c.commands| <= COMMAND_CAPACITY
  }

  /** The owner holds only the reserved run, and an unclaimed reservation is still in the queue. */
  ghost predicate OwnerAgrees(c: Controller, o: Owner) {
    && (Held(o).Some? ==> c.reserved == Held(o) && c.starts == [])
    && (o.Waiting? && c.reserved.Some? ==> c.starts == [c.reserved.value])
    && (o.Acknowledging? ==> c.reserved.None?)
    && (o.Releasing? || o.Acknowledging? ==> c.current.None?)
  }

  /** A stop is pending in the channel or being cleared; clearing happens for no other reason
      than a stop or the end of the service. */
  ghost predicate StopsHeeded(c: Controller, o: Owner) {
    && (c.stopping ==> c.stops == 1 || Clearing(o) || o.Exited?)
    && (Clearing(o) ==> c.stopping || c.closed)
    && (c.reserved.Some? ==> (c.reserved.value in c.cancelled <==> c.stopping))
    && (forall r :: r in c.cancelled ==> r <= c.nextRunID)
  }

  /** The owner's context is that of the run it holds. */
  ghost predicate ContextAgrees(o: Owner, context: Option<nat>) {
    Held(o).Some? && !o.Took? ==> context == Held(o)
  }

  /** The owner has not yet recorded the run it holds or may take next. */
  predicate BeforeBegin(s: System) {
    || s.owner.Took? || s.owner.Fetched? || s.owner.Checked? || s.owner.Prepared? || s.owner.Cleared?
    || (s.owner.Waiting? && s.control.starts != [])
  }

  ghost predicate Increasing(runs: seq<nat>, last: nat) {
    && (forall j, k :: 0 <= j < k < |runs| ==> runs[j] < runs[k])
    && (forall k :: 0 <= k < |runs| ==> 1 <= runs[k] <= last)
  }

  /** Runs are numbered from one in acceptance order, executed at most once and in that order,
      and every command reached the run it was accepted for. */
  ghost predicate Histories(s: System) {
    && |s.accepted| == s.control.nextRunID <= MAX_UINT64
    && (forall k :: 0 <= k < |s.accepted| ==> s.accepted[k] == k + 1)
    && Increasing(s.executed, s.control.nextRunID)
    && (BeforeBegin(s) ==> forall k :: 0 <= k < |s.executed| ==> s.executed[k] < s.control.nextRunID)
    && (forall k :: 0 <= k < |s.applied| ==> s.applied[k].0.run == s.applied[k].1)
  }

  ghost predicate Below(runs: seq<nat>, limit: int) {
    forall k :: 0 <= k < |runs| ==> 1 <= runs[k] < limit
  }

  function AppliedIn(applied: seq<(Command, nat)>): seq<nat> {
    seq(|applied|, k requires 0 <= k < |applied| => applied[k].1)
  }

  ghost predicate Apart(runs: seq<nat>, others: seq<nat>) {
    forall j, k :: 0 <= j < |runs| && 0 <= k < |others| ==> runs[j] != others[k]
  }

  /** The first run number that cannot have reached this point yet. */
  function Frontier(s: System, reached: bool): nat {
    if reached then s.control.nextRunID + 1 else s.control.nextRunID
  }

  /** A run recorded with an ended context gets no further than to its end check. */
  ghost predicate DoomedNeverRun(s: System) {
    && Below(s.doomed, Frontier(s, !BeforeBegin(s)))
    && (forall k :: 0 <= k < |s.doomed| && Held(s.owner) == Some(s.doomed[k]) ==>
          (s.owner.Entering? || s.owner.Returned?) && ContextEnded(s))
    && Below(AppliedIn(s.applied), Frontier(s, !BeforeBegin(s))) && Apart(s.doomed, AppliedIn(s.applied))
    && Below(s.completed, Frontier(s, !BeforeBegin(s) && Inside(s.owner).None?)) && Apart(s.doomed, s.completed)
  }

  /** The run between its begin and the record of its end. */
  function Inside(o: Owner): Option<nat> {
    if o.Entering? || o.Looping? || o.Returned? || o.Judged? then Held(o) else None
  }

  /** What the record shows: an accepted run; "running" only from its begin until it is released
      or dropped; an end only for a run that was not stopped before its end check. */
  ghost predicate RecordTruthful(s: System) {
    s.control.current.Some? ==>
      var record := s.control.current.value;
      && 1 <= record.run <= s.control.nextRunID
      && (record.status.Accepted? ==> record.run !in s.executed)
      && (record.status.Running? ==>
            && record.run in s.executed
            && (Inside(s.owner) == Some(record.run) || s.owner.Forgetting? || s.owner.Exited?))
      && (record.status.Finished? || record.status.Failed? ==> record.run in s.completed)
  }

  ghost predicate Protocol(s: System) {
    && StopsFit(s.control) && QueuesCurrent(s.control)
    && OwnerAgrees(s.control, s.owner) && StopsHeeded(s.control, s.owner)
    && ContextAgrees(s.owner, s.context)
    && (Held(s.owner).Some? || s.control.reserved.Some? ==> s.control.nextRunID >= 1)
    && Histories(s)
  }

  ghost predicate Inv(s: System) {
    Protocol(s) && DoomedNeverRun(s) && RecordTruthful(s)
  }

  lemma StopSubmittedKeeps(s: System, step: Step)
    requires Protocol(s) && (step.SubmitStop? || step.CloseService?)
    ensures Protocol(Next(s, step))
  {
  }

  lemma StartSubmittedKeeps(s: System, step: Step)
    requires Protocol(s) && step.SubmitStart?
    ensures Protocol(Next(s, step))
  {
  }

  lemma CommandKeeps(s: System, step: Step)
    requires Protocol(s) && (step.SubmitCommand? || step.ApplyCommand?)
    ensures Protocol(Next(s, step))
  {
  }

  lemma TakingKeeps(s: System, step: Step)
    requires Protocol(s) && (step.TakeStop? || step.TakeStart?)
    ensures Protocol(Next(s, step))
  {
  }

  lemma CheckingKeeps(s: System, step: Step)
    requires Protocol(s) && (step.FetchContext? || step.CheckContext? || step.Prepare? || step.Recheck?)
    ensures Protocol(Next(s, step))
  {
  }

  lemma BeginKeeps(s: System, step: Step)
    requires Protocol(s) && step.Begin?
    ensures Protocol(Next(s, step))
  {
  }

  lemma LoopKeeps(s: System, step: Step)
    requires Protocol(s) && (step.CheckLoop? || step.NextRound? || step.ReturnFromRun? || step.CheckEnd?)
    ensures Protocol(Next(s, step))
  {
  }

  lemma ConcludeKeeps(s: System, step: Step)
    requires Protocol(s) && step.Conclude?
    ensures Protocol(Next(s, step))
  {
  }

  lemma ReleaseKeeps(s: System, step: Step)
    requires Protocol(s) && step.Release?
    ensures Protocol(Next(s, step))
  {
  }

  lemma ClearingKeeps(s: System, step: Step)
    requires Protocol(s) && (step.Forget? || step.Acknowledge? || step.Exit?)
    ensures Protocol(Next(s, step))
  {
  }

  predicate BySubmitter(step: Step) {
    step.SubmitStop? || step.SubmitStart? || step.SubmitCommand? || step.CloseService?
  }

  predicate BeforeLoop(step: Step) {
    || step.TakeStop? || step.TakeStart? || step.FetchContext? || step.CheckContext? || step.Prepare?
    || step.Recheck? || step.Begin?
  }

  lemma DoomedBySubmitter(s: System, step: Step)
    requires Protocol(s) && DoomedNeverRun(s) && BySubmitter(step)
    ensures DoomedNeverRun(Next(s, step))
  {
    hide Histories, AppliedIn, Apart;
  }

  lemma DoomedBegin(s: System, step: Step)
    requires Protocol(s) && DoomedNeverRun(s) && step.Begin?
    ensures DoomedNeverRun(Next(s, step))
  {
    hide Histories, AppliedIn;
  }

  lemma DoomedBefore(s: System, step: Step)
    requires Protocol(s) && DoomedNeverRun(s) && BeforeLoop(step) && !step.Begin?
    ensures DoomedNeverRun(Next(s, step))
  {
    hide Histories, AppliedIn, Apart;
  }

  lemma DoomedApply(s: System, step: Step)
    requires Protocol(s) && DoomedNeverRun(s) && step.ApplyCommand?
    ensures DoomedNeverRun(Next(s, step))
  {
    hide Histories;
    var t := Next(s, step);
    if s.owner.Looping? && s.control.commands != [] {
      assert AppliedIn(t.applied) == AppliedIn(s.applied) + [s.owner.run];
    }
  }

  lemma DoomedConclude(s: System, step: Step)
    requires Protocol(s) && DoomedNeverRun(s) && step.Conclude?
    ensures DoomedNeverRun(Next(s, step))
  {
    hide Histories, AppliedIn;
  }

  lemma DoomedAfter(s: System, step: Step)
    requires Protocol(s) && DoomedNeverRun(s) && !BySubmitter(step) && !BeforeLoop(step) && !step.ApplyCommand? && !step.Conclude?
    ensures DoomedNeverRun(Next(s, step))
  {
    hide Histories, AppliedIn, Apart;
  }

  lemma DoomedKept(s: System, step: Step)
    requires Protocol(s) && DoomedNeverRun(s)
    ensures DoomedNeverRun(Next(s, step))
  {
    hide Protocol, DoomedNeverRun, Next;
    if BySubmitter(step) {
      DoomedBySubmitter(s, step);
    } else if step.Begin? {
      DoomedBegin(s, step);
    } else if BeforeLoop(step) {
      DoomedBefore(s, step);
    } else if step.ApplyCommand? {
      DoomedApply(s, step);
    } else if step.Conclude? {
      DoomedConclude(s, step);
    } else {
      DoomedAfter(s, step);
    }
  }

  lemma RecordBySubmitter(s: System, step: Step)
    requires Protocol(s) && RecordTruthful(s) && BySubmitter(step)
    ensures RecordTruthful(Next(s, step))
  {
  }

  lemma RecordBefore(s: System, step: Step)
    requires Protocol(s) && RecordTruthful(s) && BeforeLoop(step)
    ensures RecordTruthful(Next(s, step))
  {
  }

  lemma RecordAfter(s: System, step: Step)
    requires Protocol(s) && RecordTruthful(s) && !BySubmitter(step) && !BeforeLoop(step)
    ensures RecordTruthful(Next(s, step))
  {
  }

  lemma ProtocolKept(s: System, step: Step)
    requires Protocol(s)
    ensures Protocol(Next(s, step))
  {
    hide Protocol, Next;
    match step
    case SubmitStop(_) => StopSubmittedKeeps(s, step);
    case CloseService => StopSubmittedKeeps(s, step);
    case SubmitStart(_, _) => StartSubmittedKeeps(s, step);
    case SubmitCommand(_, _) => CommandKeeps(s, step);
    case ApplyCommand => CommandKeeps(s, step);
    case TakeStop => TakingKeeps(s, step);
    case TakeStart => TakingKeeps(s, step);
    case FetchContext => CheckingKeeps(s, step);
    case CheckContext => CheckingKeeps(s, step);
    case Prepare(_) => CheckingKeeps(s, step);
    case Recheck => CheckingKeeps(s, step);
    case Begin(_) => BeginKeeps(s, step);
    case CheckLoop => LoopKeeps(s, step);
    case NextRound => LoopKeeps(s, step);
    case ReturnFromRun => LoopKeeps(s, step);
    case CheckEnd => LoopKeeps(s, step);
    case Conclude(_) => ConcludeKeeps(s, step);
    case Release => ReleaseKeeps(s, step);
    case Forget => ClearingKeeps(s, step);
    case Acknowledge => ClearingKeeps(s, step);
    case Exit => ClearingKeeps(s, step);
  }

  lemma StepKeeps(s: System, step: Step)
    requires Inv(s)
    ensures Inv(Next(s, step))
  {
    hide Protocol, DoomedNeverRun, RecordTruthful, Next;
    ProtocolKept(s, step);
    DoomedKept(s, step);
    if BySubmitter(step) {
      RecordBySubmitter(s, step);
    } else if BeforeLoop(step) {
      RecordBefore(s, step);
    } else {
      RecordAfter(s, step);
    }
  }

  lemma {:induction false} RunInv(steps: seq<Step>)
    ensures Inv(Run(steps))
    decreases |steps|
  {
    if steps != [] {
      hide Inv, Next;
      RunInv(steps[..|steps| - 1]);
      StepKeeps(Run(steps[..|steps| - 1]), steps[|steps| - 1]);
    }
  }

  // ---------- The main results ----------

  /** Sending the stop token never blocks under the lock, and the full-queue answer to a start
      is never given: a free reservation means an empty start slot. */
  lemma LockNeverBlocks(steps: seq<Step>, document: Option<nat>)
    ensures var c := Run(steps).control;
      && (!c.stopping ==> c.stops == 0)
      && !StartEnqueued(c, document).1.QueueFull?
      && (c.reserved.None? ==> c.starts == [] && c.commands == [])
  {
    RunInv(steps);
    hide Run, OwnerAgrees, StopsHeeded, Histories;
  }

  /** Only the reserved run is ever in the owner's hands or in the queues, its context is
      installed when the owner asks for it, and no two runs are held at once. */
  lemma OneRunAtATime(steps: seq<Step>)
    ensures var s := Run(steps);
      && (Held(s.owner).Some? ==> s.control.reserved == Held(s.owner) == Some(s.control.nextRunID) && s.control.starts == [])
      && (Held(s.owner).Some? && !s.owner.Took? ==> s.context == Held(s.owner))
      && (forall k :: 0 <= k < |s.control.starts| ==> s.control.reserved == Some(s.control.starts[k]))
      && (forall k :: 0 <= k < |s.control.commands| ==> s.control.reserved == Some(s.control.commands[k].run))
  {
    RunInv(steps);
    hide Run, StopsHeeded, Histories;
  }

  /** Run numbers strictly increase, each run is executed at most once and in order, and no
      command accepted for one run is applied in another. */
  lemma NoRunSeesAnothers(steps: seq<Step>)
    ensures var s := Run(steps);
      && (forall k :: 0 <= k < |s.accepted| ==> s.accepted[k] == k + 1)
      && (forall j, k :: 0 <= j < k < |s.executed| ==> s.executed[j] < s.executed[k])
      && (forall k :: 0 <= k < |s.executed| ==> s.executed[k] in s.accepted)
      && (forall k :: 0 <= k < |s.applied| ==> s.applied[k].0.run == s.applied[k].1)
  {
    RunInv(steps);
    var s := Run(steps);
    hide Run, StopsHeeded, OwnerAgrees, QueuesCurrent;
    forall k | 0 <= k < |s.executed| ensures s.executed[k] in s.accepted {
      assert s.accepted[s.executed[k] - 1] == s.executed[k];
    }
  }

  /** A stop is never lost: until it is acknowledged it waits in its channel or is being
      cleared; acknowledging leaves every queue, the reservation and the record empty. */
  lemma StopIsAcknowledgedEmpty(steps: seq<Step>)
    ensures var s := Run(steps);
      && (s.control.stopping && !s.owner.Exited? ==> s.control.stops == 1 || Clearing(s.owner))
      && (s.owner.Acknowledging? ==>
            var c := Next(s, Acknowledge).control;
            c.starts == [] && c.commands == [] && c.stops == 0 && c.reserved.None? && c.current.None? && !c.stopping)
  {
    RunInv(steps);
    hide Run, Histories;
  }

  lemma RunNext(steps: seq<Step>, step: Step, longer: seq<Step>)
    requires longer == steps + [step]
    ensures Run(longer) == Next(Run(steps), step)
  {
    assert longer[..|steps|] == steps;
  }

  lemma RunFresh(steps: seq<Step>)
    requires steps == []
    ensures Run(steps) == FRESH
  {
  }

  /** The protocol's state with the first run in the owner's hands and a live context. */
  predicate FirstRun(s: System, o: Owner) {
    && s.owner == o && s.executed == [] && s.control.reserved == Some(1) && s.control.cancelled == {}
    && !s.control.stopping && !s.control.closed && s.control.nextRunID == 1
    && (if o.Waiting? then s.control.starts == [1] else s.control.starts == [])
    && (o.Fetched? || o.Checked? || o.Prepared? || o.Cleared? ==> s.context == Some(1))
  }

  lemma FirstAccepted(s: System)
    requires s == FRESH
    ensures FirstRun(Next(s, SubmitStart(false, None)), Waiting)
  {
  }

  lemma FirstMoves(s: System)
    ensures FirstRun(s, Waiting) ==> FirstRun(Next(s, TakeStart), Took(1))
    ensures FirstRun(s, Took(1)) ==> FirstRun(Next(s, FetchContext), Fetched(1))
    ensures FirstRun(s, Fetched(1)) ==> FirstRun(Next(s, CheckContext), Checked(1))
    ensures FirstRun(s, Checked(1)) ==> FirstRun(Next(s, Prepare(true)), Prepared(1))
    ensures FirstRun(s, Prepared(1)) ==> FirstRun(Next(s, Recheck), Cleared(1))
  {
  }

  lemma FirstOvertaken(s: System)
    requires FirstRun(s, Cleared(1))
    ensures var t := Next(s, SubmitStop(false)); t.control.stopping && t.executed == [] && Next(t, Begin(None)).executed == [1]
  {
  }

  /** A stop accepted right after the owner's second check does not keep the run from being
      recorded as running. */
  lemma StopCanComeTooLate(steps: seq<Step>)
    requires steps == [SubmitStart(false, None), TakeStart, FetchContext, CheckContext, Prepare(true), Recheck, SubmitStop(false)]
    ensures var s := Run(steps); s.control.stopping && s.executed == [] && Next(s, Begin(None)).executed == [1]
  {
    hide *;
    RunFresh(steps[..0]);
    FirstAccepted(Run(steps[..0]));
    RunNext(steps[..0], SubmitStart(false, None), steps[..1]);
    RunNext(steps[..1], TakeStart, steps[..2]);
    RunNext(steps[..2], FetchContext, steps[..3]);
    RunNext(steps[..3], CheckContext, steps[..4]);
    RunNext(steps[..4], Prepare(true), steps[..5]);
    RunNext(steps[..5], Recheck, steps[..6]);
    RunNext(steps[..6], SubmitStop(false), steps);
    FirstMoves(Run(steps[..1]));
    FirstMoves(Run(steps[..2]));
    FirstMoves(Run(steps[..3]));
    FirstMoves(Run(steps[..4]));
    FirstMoves(Run(steps[..5]));
    FirstOvertaken(Run(steps[..6]));
  }

  /** What can have happened between `s` and a later `t` of the same unacknowledged stop: no start
      was accepted, and at most the run that was `Cleared` in `s` has begun, already doomed. */
  ghost predicate StopObeyed(s: System, t: System) {
    && t.accepted == s.accepted
    && (|| (t.executed == s.executed && t.doomed == s.doomed)
        || (s.owner.Cleared? && t.executed == s.executed + [s.owner.run] && t.doomed == s.doomed + [s.owner.run]))
    && (t.owner.Cleared? ==> t.owner == s.owner && t.executed == s.executed)
  }

  lemma StopObeyedStep(s: System, t: System, step: Step)
    requires Inv(t) && t.control.stopping && StopObeyed(s, t)
    ensures StopObeyed(s, Next(t, step))
  {
    hide Histories, DoomedNeverRun, RecordTruthful, QueuesCurrent, StopsFit;
  }

  /** The stop pending after `m` steps is still unacknowledged at every later moment. */
  ghost predicate StoppingSince(steps: seq<Step>, m: nat) {
    m <= |steps| && forall k :: m <= k <= |steps| ==> Run(steps[..k]).control.stopping
  }

  /** Whatever happens until a stop is acknowledged: an owner that had not passed its second
      check when the stop was accepted does not pass it any more. */
  lemma {:induction false} NothingNewBegins(steps: seq<Step>, m: nat)
    requires StoppingSince(steps, m)
    ensures StopObeyed(Run(steps[..m]), Run(steps))
    decreases |steps|
  {
    if m == |steps| {
      assert steps[..m] == steps;
    } else {
      hide Inv, Next, StopObeyed;
      var before := steps[..|steps| - 1];
      assert forall k :: m <= k <= |before| ==> before[..k] == steps[..k];
      NothingNewBegins(before, m);
      RunInv(before);
      assert Run(steps[..|before|]).control.stopping;
      StopObeyedStep(Run(steps[..m]), Run(before), steps[|steps| - 1]);
    }
  }

  /** In some continuation a run begins before the stop accepted after `before` is acknowledged. */
  ghost predicate RunCanBegin(before: seq<Step>) {
    exists more: seq<Step> ::
      var all := before + [SubmitStop(false)] + more;
      StoppingSince(all, |before| + 1) && Run(all).executed != Run(before).executed
  }

  /** A stop is followed by a begin before it is acknowledged in some continuation if and only if
      the owner stood behind its second check at the moment the stop was accepted. */
  lemma BeginsWhileStopping(before: seq<Step>)
    requires !Run(before).control.stopping
    ensures RunCanBegin(before) <==> Run(before).owner.Cleared?
  {
    hide Inv, Next, StopObeyed;
    var stopped := before + [SubmitStop(false)];
    RunNext(before, SubmitStop(false), stopped);
    StopAccepted(Run(before));
    if RunCanBegin(before) {
      var more: seq<Step> :|
        var all := before + [SubmitStop(false)] + more;
        StoppingSince(all, |before| + 1) && Run(all).executed != Run(before).executed;
      var all := before + [SubmitStop(false)] + more;
      assert all[..|before| + 1] == stopped;
      NothingNewBegins(all, |before| + 1);
      ObeyedMeans(Run(stopped), Run(all));
    }
    if Run(before).owner.Cleared? {
      var all := stopped + [Begin(None)];
      RunNext(stopped, Begin(None), all);
      assert all[..|before| + 1] == stopped && all[..|before| + 2] == all;
      assert StoppingSince(all, |before| + 1);
      assert all == before + [SubmitStop(false)] + [Begin(None)];
    }
  }

  lemma StopAccepted(s: System)
    ensures var t := Next(s, SubmitStop(false));
      && t.control.stopping && t.owner == s.owner && t.executed == s.executed
      && (s.owner.Cleared? ==> Next(t, Begin(None)).control.stopping && Next(t, Begin(None)).executed != s.executed)
  {
  }

  lemma ObeyedMeans(s: System, t: System)
    requires StopObeyed(s, t)
    ensures t.executed != s.executed ==> s.owner.Cleared?
  {
  }

  /** A doomed run applies no command and is never recorded as finished or failed: it can only
      reach its end check, which clears it. */
  lemma DoomedRunIsCleared(steps: seq<Step>, k: nat, step: Step)
    requires k < |Run(steps).doomed|
    ensures var s := Run(steps); var r := s.doomed[k];
      && (forall j :: 0 <= j < |s.applied| ==> s.applied[j].1 != r)
      && r !in s.completed
      && (Held(s.owner) == Some(r) ==>
            && Next(s, step).owner in {s.owner, Returned(r), Forgetting, Exited}
            && Next(Next(s, CheckLoop), CheckEnd).owner == Forgetting)
  {
    hide Run, Histories, RecordTruthful, QueuesCurrent, StopsFit;
    RunInv(steps);
    DoomedApart(Run(steps), k);
  }

  lemma DoomedApart(s: System, k: nat)
    requires DoomedNeverRun(s) && k < |s.doomed|
    ensures forall j :: 0 <= j < |s.applied| ==> s.applied[j].1 != s.doomed[k]
    ensures s.doomed[k] !in s.completed
  {
    forall j | 0 <= j < |s.applied| ensures s.applied[j].1 != s.doomed[k] {
      assert AppliedIn(s.applied)[j] == s.applied[j].1;
    }
  }

  /** The record names an accepted run. It says "running" only while the owner is inside that run
      or about to drop the record, and an end only for a run that was alive at its end check. */
  lemma RecordShowsTheRun(steps: seq<Step>)
    ensures var s := Run(steps);
      s.control.current.Some? ==>
        var record := s.control.current.value;
        && record.run in s.accepted
        && (record.status.Running? ==>
              Inside(s.owner) == Some(record.run) || s.owner.Forgetting? || s.owner.Exited?)
        && (record.status.Finished? || record.status.Failed? ==> record.run in s.completed && record.run !in s.doomed)
  {
    hide Run, StopsHeeded, OwnerAgrees, QueuesCurrent;
    RunInv(steps);
    var s := Run(steps);
    if s.control.current.Some? {
      assert s.accepted[s.control.current.value.run - 1] == s.control.current.value.run;
    }
  }
}
