/** The task loop runs out of work: every task taken uses up an attempt, and when no task can be taken only stranded
    tasks are open; a single worker never has one. */
module ProtocolWork {
  import opened Contracts
  import opened CrmSpec
  import opened StoreSpec
  import opened StoreLaws
  import opened Delivery
  import opened DeliveryLaws
  import opened Protocol
  import opened ProtocolSteps
  import opened TaskLoop
  import Leases = ProtocolLeases
  import Single = ProtocolSingle

  // ---------- when claim_task finds nothing ----------

  lemma TopRests(s: Sys, i: AgentId)
    requires Leases.Inv(s) && i in s.agents && In(s.agents[i].pc, AtTop)
    ensures Rests(s.agents[i].store, s.now)
  {
    assert Leases.Steady(s.now, i, s.agents[i]);
    hide Leases.Inv;
  }

  /** Any number of workers: when claim_task finds nothing at the top of the loop, no task is running, and the pending
      ones are exactly those without an attempt left. So work remains if and only if a task is stranded. */
  lemma NoTaskLeavesOnlyStranded(s: Sys, i: AgentId, seconds: nat)
    requires Reachable(s) && i in s.agents && In(s.agents[i].pc, AtTop)
    requires ClaimTask(s.agents[i].store, i, s.now, seconds).1 == None
    ensures var after := ClaimTask(s.agents[i].store, i, s.now, seconds).0;
      && StrandedIn(after) == StrandedIn(s.agents[i].store)
      && (forall t :: t in after.tasks && after.tasks[t].status.Open() ==> Stranded(after.tasks[t]))
      && Summary(after).pending == |StrandedIn(s.agents[i].store)| && Summary(after).running == 0
  {
    Leases.ReachableInv(s);
    hide Reachable, Leases.Inv, ClaimTask, Rests, Summary;
    TopRests(s, i);
    ClaimExecutes(s.agents[i].store, i, s.now, seconds);
    OnlyStrandedOpen(ClaimTask(s.agents[i].store, i, s.now, seconds).0);
  }

  /** A single worker: no task is stranded, so when claim_task finds nothing no task is pending or running, and the run
      can be reported. */
  lemma NoTaskMeansNoWork(s: Sys, i: AgentId, seconds: nat)
    requires Reachable(s) && s.agents.Keys == {i} && In(s.agents[i].pc, AtTop)
    requires ClaimTask(s.agents[i].store, i, s.now, seconds).1 == None
    ensures var after := ClaimTask(s.agents[i].store, i, s.now, seconds).0;
      && (forall t :: t in after.tasks ==> !after.tasks[t].status.Open())
      && Summary(after).pending == 0 && Summary(after).running == 0
  {
    assert i in s.agents;
    hide Reachable, ClaimTask, Summary;
    var after := ClaimTask(s.agents[i].store, i, s.now, seconds).0;
    NoTaskLeavesOnlyStranded(s, i, seconds);
    Single.PendingHasAttemptsLeft(s, i);
    assert StrandedIn(s.agents[i].store) == {};
    forall t | t in after.tasks && after.tasks[t].status.Open() ensures t in StrandedIn(after) {}
  }

  // ---------- how often a task can be taken ----------

  predicate Takes(step: Step, i: AgentId) { step.Lease? && step.i == i && step.lease.TakeTask? }

  predicate Loads(step: Step, i: AgentId) { step.Lease? && step.i == i && step.lease.Ensure? }

  function TakenIn(steps: seq<Step>, i: AgentId): nat {
    if |steps| == 0 then 0 else (if Takes(steps[0], i) then 1 else 0) + TakenIn(steps[1..], i)
  }

  ghost function Remaining(s: Sys, i: AgentId): nat
    requires i in s.agents
  {
    Left(s.agents[i].store.tasks, s.agents[i].store.order)
  }

  lemma TakeUsesAttempt(s: Sys, i: AgentId, seconds: nat)
    requires CanTake(s, i, seconds) && Ordered(s.agents[i].store)
    ensures i in Took(s, i, seconds).agents && Remaining(Took(s, i, seconds), i) < Remaining(s, i)
  {
    var a, b := s.agents[i].store, Took(s, i, seconds).agents[i].store;
    ClaimTaskTakes(a, i, s.now, seconds);
    hide ClaimTask;
    var t := Took(s, i, seconds).agents[i].pc.phase.task.id;
    assert t in a.order && LeftOf(b.tasks[t]) < LeftOf(a.tasks[t]);
    LeftFalls(a.tasks, b.tasks, a.order);
  }

  lemma WorkUsesNothing(s: Sys, i: AgentId, w: WorkStep)
    requires WorkEnabled(s, i, w) && Leases.Leased(s.now, i, s.agents[i])
    ensures i in AfterWork(s, i, w).agents && Remaining(AfterWork(s, i, w), i) <= Remaining(s, i)
  {
    if w.Pass? { ClaimTaskTakes(s.agents[i].store, i, s.now, w.seconds); }
    hide ClaimTask;
    LeftFalls(s.agents[i].store.tasks, AfterWork(s, i, w).agents[i].store.tasks, s.agents[i].store.order);
  }

  lemma LeaseUsesNothing(s: Sys, i: AgentId, l: LeaseStep)
    requires LeaseEnabled(s, i, l) && !l.Ensure? && !l.TakeTask?
    ensures i in AfterLease(s, i, l).agents && Remaining(AfterLease(s, i, l), i) == Remaining(s, i)
  {
  }

  lemma StepUses(s: Sys, step: Step, i: AgentId)
    requires i in s.agents && Leases.Steady(s.now, i, s.agents[i]) && Enabled(s, step) && !Loads(step, i)
    requires step.World? || step.i == i
    ensures i in Apply(s, step).agents
    ensures Remaining(Apply(s, step), i) + (if Takes(step, i) then 1 else 0) <= Remaining(s, i)
  {
    assert Leases.Leased(s.now, i, s.agents[i]) && Ordered(s.agents[i].store);
    hide Leases.Steady, Leases.Leased, LeaseEnabled, WorkEnabled, QueueEnabled, CanDeliver, CanReplay, AfterLease, AfterWork,
      AfterQueue, Delivered, Replayed, Remaining;
    match step
    case World(w) => WorldUsesNothing(s, i, w);
    case Lease(_, l) => LeaseUses(s, i, l);
    case Work(_, w) => WorkUsesNothing(s, i, w);
    case Queue(_, q) => QueueUsesNothing(s, i, q);
    case Deliver(_, k, channel) => DeliverUsesNothing(s, i, k, channel);
    case Replay(_, k, channel) => ReplayUsesNothing(s, i, k, channel);
  }

  lemma DeliverUsesNothing(s: Sys, i: AgentId, k: Key, channel: Channel)
    requires CanDeliver(s, i, k)
    ensures i in Delivered(s, i, k, channel).agents && Remaining(Delivered(s, i, k, channel), i) == Remaining(s, i)
  {
    DeliveringLogs(s, i, k, channel);
    hide Delivered;
  }

  lemma ReplayUsesNothing(s: Sys, i: AgentId, k: Key, channel: Channel)
    requires CanReplay(s, i, k)
    ensures i in Replayed(s, i, k, channel).agents && Remaining(Replayed(s, i, k, channel), i) == Remaining(s, i)
  {
    ReplayingLogs(s, i, k, channel);
    hide Replayed;
  }

  /** A step of another worker leaves this one's store alone. */
  lemma OtherUsesNothing(s: Sys, step: Step, i: AgentId)
    requires i in s.agents && Enabled(s, step) && !step.World? && step.i != i
    ensures i in Apply(s, step).agents && Remaining(Apply(s, step), i) == Remaining(s, i)
  {
    Others(s, step);
    hide Apply, Enabled;
  }

  lemma Others(s: Sys, step: Step)
    requires Enabled(s, step) && !step.World?
    ensures OthersSame(s, Apply(s, step), step.i)
  {
    hide LeaseEnabled, QueueEnabled, CanDeliver, CanReplay, AfterLease, AfterQueue, Delivered, Replayed, Worked;
    match step
    case Lease(i, l) => LeaseIsQuiet(s, i, l);
    case Work(_, _) =>
    case Queue(i, q) => Leases.QueueFrame(s, i, q);
    case Deliver(i, k, channel) => DeliveringLogs(s, i, k, channel);
    case Replay(i, k, channel) => ReplayingLogs(s, i, k, channel);
  }

  lemma LeaseUses(s: Sys, i: AgentId, l: LeaseStep)
    requires LeaseEnabled(s, i, l) && !l.Ensure? && Ordered(s.agents[i].store)
    ensures i in AfterLease(s, i, l).agents
    ensures Remaining(AfterLease(s, i, l), i) + (if l.TakeTask? then 1 else 0) <= Remaining(s, i)
  {
    if l.TakeTask? { TakeUsesAttempt(s, i, l.seconds); } else { LeaseUsesNothing(s, i, l); }
  }

  lemma WorldUsesNothing(s: Sys, i: AgentId, w: WorldStep)
    requires WorldEnabled(s, w) && i in s.agents
    ensures i in AfterWorld(s, w).agents && Remaining(AfterWorld(s, w), i) == Remaining(s, i)
  {
  }

  lemma QueueUsesNothing(s: Sys, i: AgentId, q: QueueStep)
    requires QueueEnabled(s, i, q)
    ensures i in AfterQueue(s, i, q).agents && Remaining(AfterQueue(s, i, q), i) == Remaining(s, i)
  {
    Leases.QueueFrame(s, i, q);
    hide AfterQueue;
  }

  ghost predicate NoLoad(steps: seq<Step>, i: AgentId) {
    forall n :: 0 <= n < |steps| ==> !Loads(steps[n], i)
  }

  lemma StepUsesAndKeeps(s: Sys, step: Step, i: AgentId)
    requires Leases.Inv(s) && i in s.agents && Enabled(s, step) && !Loads(step, i)
    ensures Leases.Inv(Apply(s, step)) && i in Apply(s, step).agents
    ensures Remaining(Apply(s, step), i) + (if Takes(step, i) then 1 else 0) <= Remaining(s, i)
  {
    assert Leases.Steady(s.now, i, s.agents[i]);
    hide Leases.Inv, Leases.Steady, Remaining, Apply, Enabled;
    Leases.StepKeeps(s, step);
    if step.World? || step.i == i { StepUses(s, step, i); } else { OtherUsesNothing(s, step, i); }
  }

  lemma {:induction false} RunsUse(s: Sys, steps: seq<Step>, s': Sys, i: AgentId)
    requires i in s.agents && Leases.Inv(s) && Runs(s, steps, s') && NoLoad(steps, i)
    ensures i in s'.agents && TakenIn(steps, i) + Remaining(s', i) <= Remaining(s, i)
    decreases |steps|
  {
    hide Leases.Inv, Remaining, Apply, Enabled;
    if |steps| > 0 {
      assert !Loads(steps[0], i);
      StepUsesAndKeeps(s, steps[0], i);
      assert NoLoad(steps[1..], i);
      RunsUse(Apply(s, steps[0]), steps[1..], s', i);
    }
  }

  /** Any number of workers: between two claims a worker takes a task at most as often as its unfinished tasks have
      attempts left, and each time uses one of them up, whatever the CRM, the network and other workers do. */
  lemma TaskLoopIsBounded(s: Sys, steps: seq<Step>, s': Sys, i: AgentId)
    requires Reachable(s) && i in s.agents && Runs(s, steps, s') && NoLoad(steps, i)
    ensures i in s'.agents && TakenIn(steps, i) + Remaining(s', i) <= Remaining(s, i)
  {
    Leases.ReachableInv(s);
    RunsUse(s, steps, s', i);
  }
}
