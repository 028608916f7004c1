/** What a host does with one packet: when it is refused, where accepted work goes, how long it
    holds a core, and what the peak counter means. */
module HostRules {
  import opened Basics
  import opened Host

  // ---------- One submission ----------

  /** Work is refused exactly when the host is stopped, or all its cores are busy and its waiting
      slots taken; anything else goes to the callback, to a core, or to the end of the queue. */
  lemma SubmitRule(s: State)
    requires Inv(s)
    ensures var t := Next(s, Submit); var w := Waiting(s.stats.accepted, s.now);
      if s.stopped then t == s
      else if s.config.cost == 0 then
        t == s.(stats := t.stats, callbacks := s.callbacks + [w.number]) && t.stats.accepted == s.stats.accepted + 1
      else if |s.active| < s.config.cores then
        && t.active == s.active[w.number := Running(s.now + s.config.cost, s.nextEvent, s.now + s.config.cost <= s.endTime)]
        && t.queue == s.queue && t.callbacks == s.callbacks && t.stats.accepted == s.stats.accepted + 1
      else if |s.queue| < s.config.capacity then
        && t.queue == s.queue + [w] && t.active == s.active && t.callbacks == s.callbacks
        && t.stats.accepted == s.stats.accepted + 1
      else
        t == s.(stats := s.stats.(offered := s.stats.offered + 1, dropped := s.stats.dropped + 1))
        && |s.active| == s.config.cores && |s.queue| == s.config.capacity
    ensures Next(s, Submit).stats.dropped > s.stats.dropped ==>
      !s.stopped && s.config.cost != 0 && |s.active| >= s.config.cores && |s.queue| >= s.config.capacity
  {
    hide InOrder, DueInOrder, BusyExact, WaitExact, Area;
  }

  /** In every run a drop means that at that moment every core was busy and every slot taken. */
  lemma DropsOnlyWhenFull(c: Config, start: int, endTime: int, steps: seq<Step>, k: nat)
    requires Validate(c, endTime - start) && k < |steps|
    requires Run(c, start, endTime, steps[..k + 1]).stats.dropped > Run(c, start, endTime, steps[..k]).stats.dropped
    ensures var s := Run(c, start, endTime, steps[..k]); steps[k].Submit? && |s.active| == c.cores && |s.queue| == c.capacity
  {
    hide Inv, Next, Init;
    assert steps[..k + 1][..k] == steps[..k];
    RunInv(c, start, endTime, steps[..k]);
    OnlySubmitDrops(Run(c, start, endTime, steps[..k]), steps[k]);
    SubmitRule(Run(c, start, endTime, steps[..k]));
  }

  lemma OnlySubmitDrops(s: State, step: Step)
    ensures !step.Submit? ==> Next(s, step).stats.dropped == s.stats.dropped
  {
  }

  // ---------- One core ----------

  /** While work stays on a core its completion does not move, and work that takes a core will
      complete the processing cost later. */
  lemma CoreRule(s: State, step: Step, n: nat)
    requires Inv(s)
    ensures var t := Next(s, step);
      n in t.active ==>
        if n in s.active && !(step.Complete? && Enabled(s, step) && step.number == n) then t.active[n] == s.active[n]
        else t.active[n].doneAt == t.now + s.config.cost
  {
    hide DueInOrder, BusyExact, WaitExact, Area, Conserves, WorkConserving;
  }

  /** Work that took a core at step `i` and completes at step `j` held it for the processing cost. */
  lemma HoldsCoreForCost(c: Config, start: int, endTime: int, steps: seq<Step>, i: nat, j: nat, n: nat)
    requires Validate(c, endTime - start) && i < j < |steps| && steps[j] == Complete(n)
    requires n !in Run(c, start, endTime, steps[..i]).active
    requires forall k :: i < k <= j ==> n in Run(c, start, endTime, steps[..k]).active
    requires Enabled(Run(c, start, endTime, steps[..j]), steps[j])
    requires forall k :: i < k < j ==> steps[k] != Complete(n)
    ensures Run(c, start, endTime, steps[..j]).now == Run(c, start, endTime, steps[..i + 1]).now + c.cost
  {
    StaysOnCore(c, start, endTime, steps, i, j, n);
  }

  lemma {:induction false} StaysOnCore(c: Config, start: int, endTime: int, steps: seq<Step>, i: nat, j: nat, n: nat)
    requires Validate(c, endTime - start) && i < j <= |steps|
    requires n !in Run(c, start, endTime, steps[..i]).active
    requires forall k :: i < k <= j ==> n in Run(c, start, endTime, steps[..k]).active
    requires forall k :: i < k < j ==> steps[k] != Complete(n)
    ensures Run(c, start, endTime, steps[..j]).active[n].doneAt == Run(c, start, endTime, steps[..i + 1]).now + c.cost
    decreases j
  {
    hide Inv, Next, Init, Enabled;
    var before := Run(c, start, endTime, steps[..j - 1]);
    assert steps[..j][..j - 1] == steps[..j - 1];
    RunInv(c, start, endTime, steps[..j - 1]);
    CoreRule(before, steps[j - 1], n);
    if j - 1 > i {
      StaysOnCore(c, start, endTime, steps, i, j - 1, n);
    }
  }

  // ---------- Peaks ----------

  /** The longest queue at any moment of the run. */
  function PeakQueue(c: Config, start: int, endTime: int, steps: seq<Step>): nat
    decreases |steps|
  {
    var now := |Run(c, start, endTime, steps).queue|;
    if steps == [] then now else Max(now, PeakQueue(c, start, endTime, steps[..|steps| - 1]))
  }

  lemma {:induction false} PeakIsExact(c: Config, start: int, endTime: int, steps: seq<Step>)
    ensures var s := Run(c, start, endTime, steps); s.stats.maxQueued == PeakQueue(c, start, endTime, steps) >= |s.queue|
    decreases |steps|
  {
    if steps != [] {
      hide Next, Init;
      PeakIsExact(c, start, endTime, steps[..|steps| - 1]);
      PeakStep(Run(c, start, endTime, steps[..|steps| - 1]), steps[|steps| - 1]);
    }
  }

  lemma PeakStep(s: State, step: Step)
    requires |s.queue| <= s.stats.maxQueued
    ensures var t := Next(s, step); t.stats.maxQueued == Max(s.stats.maxQueued, |t.queue|)
  {
  }

  /** A wait ends when the oldest waiter takes the core that a completion frees; it is added to the
      total and can only raise the maximum. */
  lemma WaitRule(s: State, number: nat)
    requires Inv(s) && Enabled(s, Complete(number))
    ensures var t := Next(s, Complete(number));
      && t.callbacks == s.callbacks + [number] && t.stats.processed == s.stats.processed + 1
      && (if s.queue == [] then t.queue == [] && t.active == s.active - {number} && t.stats.started == s.stats.started
          else
            var wait := s.now - s.queue[0].queuedAt;
            && t.queue == s.queue[1..] && s.queue[0].number in t.active && t.active.Keys == s.active.Keys - {number} + {s.queue[0].number}
            && t.stats.started == s.stats.started + 1 && t.stats.queueWait == s.stats.queueWait + wait
            && t.stats.maxWait == (if wait > s.stats.maxWait then wait else s.stats.maxWait))
  {
    hide DueInOrder, BusyExact, WaitExact, Area, Conserves, WorkConserving;
  }

  /** Discarding abandons all accepted work, with the longest wait among it; stopping does so once
      and refuses everything after. */
  lemma DiscardRule(s: State, step: Step)
    requires Inv(s) && !s.stopped && (step.Discard? || step.Stop?)
    ensures var t := Next(s, step);
      && t.active == map[] && t.queue == [] && t.callbacks == s.callbacks
      && t.stats.discarded == s.stats.discarded + |s.active| + |s.queue|
      && t.stopped == step.Stop?
      && (if s.queue == [] then t.stats.maxWait == s.stats.maxWait
          else t.stats.maxWait == Max(s.stats.maxWait, s.now - s.queue[0].queuedAt))
  {
    hide DueInOrder, BusyExact, WaitExact, Area;
  }
}
