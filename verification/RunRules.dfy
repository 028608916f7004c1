/** What each request gets from the run controller in a reachable state, where each check sends the
    owner, and in which order commands are applied. */
module RunRules {
  import opened Basics
  import opened RunAdmission

  // ---------- Requests ----------

  /** A start is accepted exactly while the service runs, no run is reserved, no stop is pending and
      numbers are left: it gets the next number, a live context and an empty command queue, and is
      recorded as accepted if it brings a document. Otherwise it changes nothing. */
  lemma StartRule(steps: seq<Step>, document: Option<nat>)
    ensures var s := Run(steps); var t := Next(s, SubmitStart(false, document)); var run := |s.accepted| + 1;
      if !s.control.closed && s.control.reserved.None? && !s.control.stopping && run <= MAX_UINT64 then
        && t == s.(control := t.control, accepted := s.accepted + [run])
        && t.control.reserved == Some(run) && t.control.starts == [run] && t.control.commands == []
        && !t.control.stopping && !Ended(t.control, run)
        && t.control.current == (if document.Some? then Some(Record(run, Accepted, document.value)) else s.control.current)
      else t == s
  {
    RunInv(steps);
    hide Run, DoomedNeverRun, RecordTruthful, OwnerAgrees, ContextAgrees;
  }

  /** A command is accepted exactly while a run is reserved, no stop is pending and fewer than 64
      wait: it waits behind them. Otherwise it changes nothing. */
  lemma CommandRule(steps: seq<Step>, payload: nat)
    ensures var s := Run(steps); var t := Next(s, SubmitCommand(false, payload));
      if s.control.reserved.Some? && !s.control.stopping && |s.control.commands| < 64 then
        t == s.(control := s.control.(commands := s.control.commands + [Command(|s.accepted|, payload)]))
      else t == s
  {
    RunInv(steps);
    hide Run, DoomedNeverRun, RecordTruthful, OwnerAgrees, ContextAgrees;
  }

  /** The first stop puts one token in the channel and ends the context of the reserved run; until
      it is acknowledged another stop changes nothing. A cancelled request never does. */
  lemma StopRule(steps: seq<Step>, document: Option<nat>, payload: nat)
    ensures var s := Run(steps); var t := Next(s, SubmitStop(false));
      && (s.control.stopping ==> t == s)
      && (!s.control.stopping ==>
            && t.control.stopping && t.control.stops == 1
            && (s.control.reserved.Some? ==> Ended(t.control, s.control.reserved.value))
            && t == s.(control := s.control.(stopping := true, stops := 1, cancelled := t.control.cancelled)))
    ensures var s := Run(steps);
      Next(s, SubmitStop(true)) == Next(s, SubmitStart(true, document)) == Next(s, SubmitCommand(true, payload)) == s
  {
    RunInv(steps);
    hide Run, DoomedNeverRun, RecordTruthful, OwnerAgrees, ContextAgrees, Histories;
  }

  // ---------- The owner's checks ----------

  /** Each of the owner's checks of a run sends it to clearing exactly when the run was stopped or
      the service closed; an invalid configuration is released without ever being recorded as
      running, and a run that lives at its end is recorded as what it ended with. */
  lemma CheckRule(steps: seq<Step>, valid: bool, failed: bool)
    ensures var s := Run(steps);
      && (s.owner.Fetched? ==> Next(s, CheckContext).owner == if Over(s) then Forgetting else Checked(s.owner.run))
      && (s.owner.Checked? ==> Next(s, Prepare(valid)).owner == if valid then Prepared(s.owner.run) else Rejected(s.owner.run))
      && (s.owner.Prepared? ==> Next(s, Recheck).owner == if Over(s) then Forgetting else Cleared(s.owner.run))
      && (s.owner.Entering? ==> Next(s, CheckLoop).owner == if Over(s) then Returned(s.owner.run) else Looping(s.owner.run))
      && (s.owner.Returned? ==> Next(s, CheckEnd).owner == if Over(s) then Forgetting else Judged(s.owner.run))
      && (s.owner.Rejected? ==> var t := Next(s, Release); t.owner.Waiting? && t.executed == s.executed && t.control.reserved.None?)
      && (s.owner.Judged? ==>
            var t := Next(s, Conclude(failed));
            && t.completed == s.completed + [s.owner.run] && t.owner == Completing(s.owner.run)
            && (s.control.current.Some? && s.control.current.value.run == s.owner.run ==>
                  t.control.current == Some(s.control.current.value.(status := if failed then Failed else Finished))))
  {
    RunInv(steps);
    hide Run, DoomedNeverRun, RecordTruthful, Histories, QueuesCurrent;
  }

  /** The run in the owner's hands was stopped, or the service closed. */
  predicate Over(s: System)
    requires Held(s.owner).Some?
  {
    s.control.closed || Held(s.owner).value in s.control.cancelled
  }

  /** Beginning a run records it as running, with its document if it has one. */
  lemma BeginRule(steps: seq<Step>, document: Option<nat>)
    ensures var s := Run(steps); var t := Next(s, Begin(document));
      if s.owner.Cleared? then
        && t.owner == Entering(s.owner.run) && t.executed == s.executed + [s.owner.run]
        && (document.Some? ==> t.control.current == Some(Record(s.owner.run, Running, document.value)))
        && (document.None? && s.control.current.Some? && s.control.current.value.run == s.owner.run ==>
              t.control.current == Some(s.control.current.value.(status := Running)))
        && t.control == s.control.(current := t.control.current)
      else t == s
  {
    RunInv(steps);
    hide Run, DoomedNeverRun, RecordTruthful, Histories, QueuesCurrent;
  }

  // ---------- The order of commands ----------

  /** The commands a run of the protocol accepted, in that order. */
  function Taken(steps: seq<Step>): seq<Command>
    decreases |steps|
  {
    if steps == [] then [] else
      Taken(steps[..|steps| - 1]) + Joined(Run(steps[..|steps| - 1]), Run(steps))
  }

  /** Those for run `r`. */
  function For(commands: seq<Command>, r: nat): seq<Command>
    decreases |commands|
  {
    if commands == [] then [] else
      var last := commands[|commands| - 1];
      For(commands[..|commands| - 1], r) + if last.run == r then [last] else []
  }

  function AppliedFor(applied: seq<(Command, nat)>, r: nat): seq<Command>
    decreases |applied|
  {
    if applied == [] then [] else
      var last := applied[|applied| - 1];
      AppliedFor(applied[..|applied| - 1], r) + if last.1 == r then [last.0] else []
  }

  /** Nothing is applied out of turn: what was applied in `r` is the beginning of what was accepted
      for it, and while `r` is reserved the rest is what waits. */
  ghost predicate InTurn(s: System, taken: seq<Command>, r: nat) {
    && AppliedFor(s.applied, r) <= For(taken, r)
    && (s.control.reserved == Some(r) ==> For(taken, r) == AppliedFor(s.applied, r) + s.control.commands)
    && (r > s.control.nextRunID ==> For(taken, r) == [])
  }

  lemma ForLast(commands: seq<Command>, last: Command, r: nat, all: seq<Command>)
    requires all == commands + [last]
    ensures For(all, r) == For(commands, r) + if last.run == r then [last] else []
  {
    assert all[..|all| - 1] == commands;
  }

  lemma AppliedLast(applied: seq<(Command, nat)>, last: (Command, nat), r: nat, all: seq<(Command, nat)>)
    requires all == applied + [last]
    ensures AppliedFor(all, r) == AppliedFor(applied, r) + if last.1 == r then [last.0] else []
  {
    assert all[..|all| - 1] == applied;
  }

  /** What the step from `s` to `t` adds to the accepted commands. */
  function Joined(s: System, t: System): seq<Command> {
    if |t.control.commands| > |s.control.commands| then t.control.commands[|s.control.commands|..] else []
  }

  lemma InTurnSubmit(s: System, step: Step, taken: seq<Command>, r: nat)
    requires Protocol(s) && InTurn(s, taken, r) && step.SubmitCommand?
    ensures InTurn(Next(s, step), taken + Joined(s, Next(s, step)), r)
  {
    hide Histories, For, AppliedFor, StopsHeeded, StopsFit, ContextAgrees;
    var c := s.control;
    if !step.requestCancelled && c.reserved.Some? && !c.stopping && |c.commands| < COMMAND_CAPACITY {
      var last := Command(c.reserved.value, step.payload);
      ForLast(taken, last, r, taken + [last]);
      assert (c.commands + [last])[|c.commands|..] == [last];
    } else {
      assert taken + [] == taken;
    }
  }

  lemma InTurnApply(s: System, taken: seq<Command>, r: nat)
    requires Protocol(s) && InTurn(s, taken, r)
    ensures InTurn(Next(s, ApplyCommand), taken + Joined(s, Next(s, ApplyCommand)), r)
  {
    hide Histories, For, AppliedFor, StopsHeeded, StopsFit;
    assert taken + [] == taken;
    if s.owner.Looping? && s.control.commands != [] {
      var last := (s.control.commands[0], s.owner.run);
      AppliedLast(s.applied, last, r, s.applied + [last]);
      assert s.control.commands == [s.control.commands[0]] + s.control.commands[1..];
    }
  }

  lemma InTurnOther(s: System, step: Step, taken: seq<Command>, r: nat)
    requires Protocol(s) && InTurn(s, taken, r) && !step.SubmitCommand? && !step.ApplyCommand?
    ensures InTurn(Next(s, step), taken + Joined(s, Next(s, step)), r)
  {
    hide Histories, For, AppliedFor, StopsHeeded, StopsFit, ContextAgrees;
    assert taken + [] == taken;
  }

  /** One action accepts at most one command and applies at most the oldest one. */
  lemma InTurnStep(s: System, step: Step, taken: seq<Command>, r: nat)
    requires Protocol(s) && InTurn(s, taken, r)
    ensures InTurn(Next(s, step), taken + Joined(s, Next(s, step)), r)
  {
    hide Protocol, InTurn, Next;
    if step.SubmitCommand? {
      InTurnSubmit(s, step, taken, r);
    } else if step.ApplyCommand? {
      InTurnApply(s, taken, r);
    } else {
      InTurnOther(s, step, taken, r);
    }
  }

  /** In every interleaving the commands applied in a run are the first ones accepted for it, in
      the order of acceptance, and until the run is released the others are still waiting. */
  lemma {:induction false} CommandsInTurn(steps: seq<Step>, r: nat)
    ensures InTurn(Run(steps), Taken(steps), r)
    decreases |steps|
  {
    hide Inv, Next, InTurn, Protocol;
    if steps == [] {
      NoneTaken(r);
    } else {
      var before := steps[..|steps| - 1];
      CommandsInTurn(before, r);
      RunInv(before);
      InvProtocol(Run(before));
      InTurnStep(Run(before), steps[|steps| - 1], Taken(before), r);
    }
  }

  lemma NoneTaken(r: nat)
    ensures InTurn(FRESH, [], r)
  {
  }

  lemma InvProtocol(s: System)
    requires Inv(s)
    ensures Protocol(s)
  {
    hide Protocol;
  }
}
