/** A finished task can be searched again if and only if a second worker with its own store takes part. */
module SearchedAgain {
  import opened Contracts
  import opened CrmSpec
  import opened StoreSpec
  import opened StoreLaws
  import opened Delivery
  import opened DeliveryLaws
  import opened Protocol
  import opened ProtocolSteps
  import opened ProtocolSessions
  import opened TaskLoop
  import opened Stranding
  import Leases = ProtocolLeases
  import Single = ProtocolSingle

  // ---------- what was done stays on record ----------

  lemma QueueKeepsDone(s: Sys, i: AgentId, q: QueueStep, t: TaskId)
    requires QueueEnabled(s, i, q) && t in s.done
    ensures t in AfterQueue(s, i, q).done
  {
  }

  lemma LeaseKeepsDone(s: Sys, i: AgentId, l: LeaseStep)
    requires LeaseEnabled(s, i, l)
    ensures AfterLease(s, i, l).done == s.done
  {
    hide EnsureRun, ClaimTask;
  }

  lemma StepKeepsDone(s: Sys, step: Step, t: TaskId)
    requires Enabled(s, step) && t in s.done
    ensures t in Apply(s, step).done
  {
    hide AfterLease, AfterQueue, LeaseEnabled, QueueEnabled, StoreAfter, StoreAfterReplay, CrmAfter, Worked, Logged, Finalizes, Reserves;
    if step.Lease? { LeaseKeepsDone(s, step.i, step.lease); }
    if step.Queue? { QueueKeepsDone(s, step.i, step.queue, t); }
  }

  lemma {:induction false} RunsKeepDone(s: Sys, steps: seq<Step>, s': Sys, t: TaskId)
    requires Runs(s, steps, s') && t in s.done
    ensures t in s'.done
    decreases |steps|
  {
    hide Enabled, Apply;
    if |steps| > 0 {
      StepKeepsDone(s, steps[0], t);
      RunsKeepDone(Apply(s, steps[0]), steps[1..], s', t);
    }
  }

  // ---------- the second search ----------

  /** Worker i is about to search, or searching, a task whose completion was queued. */
  ghost predicate SearchesDone(s: Sys, i: AgentId, t: TaskId) {
    i in s.agents && t in s.done && Leases.WorksOn(s.agents[i].pc, t)
  }

  /** The worker finishes its search, queues the completion, and stops before it is delivered. */
  lemma FinishesUnheard(s: Sys, i: AgentId, x: Exec) returns (steps: seq<Step>, s': Sys)
    requires Searches(s, i, x) && s.crm.run.status == RunRunning
    ensures Runs(s, steps, s') && x.task in s'.done && OthersSame(s, s', i) && Claimable(s'.crm.run, s'.now)
    ensures s'.rid == s.rid && s'.refuses == s.refuses && s'.crm == s.crm && s.nextEvent <= s'.nextEvent
  {
    Leased(s, i, x);
    hide Runs, Searches, FinishTask, Claimable;
    var t := FindsNothing(s, i, x);
    steps, s' := LeavesUnheard(t, i, x);
    RunsJoin(s, [Queue(i, Save([])), Work(i, Finish(0, 0))], t, steps, s');
    steps := [Queue(i, Save([])), Work(i, Finish(0, 0))] + steps;
  }

  lemma Leased(s: Sys, i: AgentId, x: Exec)
    requires Searches(s, i, x)
    ensures i in s.agents && s.crm.run.lease.Some?
  {
  }

  lemma LeavesUnheard(s: Sys, i: AgentId, x: Exec) returns (steps: seq<Step>, s': Sys)
    requires i in s.agents && In(s.agents[i].pc, Doing(x, Finished)) && s.crm.run.status == RunRunning && s.crm.run.lease.Some?
    ensures Runs(s, steps, s') && x.task in s'.done && OthersSame(s, s', i) && Claimable(s'.crm.run, s'.now)
    ensures s'.rid == s.rid && s'.refuses == s.refuses && s'.crm == s.crm && s.nextEvent <= s'.nextEvent
  {
    hide Runs, Claimable;
    var q := ReportDone(DoneEvent(s.nextEvent, x.task));
    var t := AfterQueue(s, i, q);
    QueueRuns(s, i, q);
    s' := Lapses(t, i);
    var late := [Work(i, Leave), World(Tick(t.crm.run.lease.value.expires))];
    RunsJoin(s, [Queue(i, q)], t, late, s');
    steps := [Queue(i, q)] + late;
  }

  /** Worker i finishes a task and stops with its completion still queued; worker `next`, whose store has not heard of it,
      takes the task from the CRM and searches it again. */
  lemma SearchedTwice(s: Sys, i: AgentId, next: AgentId, j: nat) returns (steps: seq<Step>, s': Sys)
    requires Init(s) && EventsPass(s) && i in s.agents && next in s.agents && i != next && s.crm.run.maxCandidates > 0
    requires j < |s.crm.run.tasks| && s.crm.run.tasks[j].maxAttempts >= 2
    ensures Runs(s, steps, s') && SearchesDone(s', next, s.crm.run.tasks[j].id)
  {
    BeginsWilling(s, next);
    assert Stopped(s, next, {});
    var s1, x;
    hide Runs, Begins, Willing, Searches, SearchesDone, Stopped;
    steps, s1, x := FirstSearch(s, i, j);
    var more, s2 := FinishesAfter(s, s1, i, next, j, x);
    RunsJoin(s, steps, s1, more, s2);
    steps := steps + more;
    var y;
    more, s', y := SearchesTask(s2, next, j);
    RunsJoin(s, steps, s2, more, s');
    RunsKeepDone(s2, more, s', x.task);
    steps := steps + more;
    SearchingWorks(s', next, y);
  }

  lemma FinishesAfter(s: Sys, s1: Sys, i: AgentId, next: AgentId, j: nat, x: Exec) returns (steps: seq<Step>, s': Sys)
    requires Stopped(s, next, {}) && i != next && SearchesFirst(s1, i, x, j) && Since(s, s1, i) && s.crm.run.candidates == map[]
    ensures Runs(s1, steps, s') && x.task in s'.done && s'.crm == s1.crm && Claimable(s'.crm.run, s'.now)
    ensures Willing(s', next) && s'.agents[next].pc.Idle? && Drained(s'.agents[next].store)
  {
    hide Runs, Fresh;
    steps, s' := FinishesUnheard(s1, i, x);
    StoppedFresh(s, next);
    SearchingFresh(s1, i, x);
    StillStopped(s, s', next, i);
  }

  lemma SearchingFresh(s: Sys, i: AgentId, x: Exec)
    requires Searches(s, i, x)
    ensures forall e: EventId :: e >= s.nextEvent ==> EventKey(s.rid, e) !in s.crm.idem
  {
  }

  lemma SearchingWorks(s: Sys, i: AgentId, x: Exec)
    requires Searches(s, i, x) && x.task in s.done
    ensures SearchesDone(s, i, x.task)
  {
  }

  /** Some run leads to a worker that searches a finished task. */
  ghost predicate CanSearchDone(s: Sys) {
    exists steps, s', i, t :: Runs(s, steps, s') && SearchesDone(s', i, t)
  }

  lemma OneWorkerNeverSearchesDone(s: Sys, steps: seq<Step>, s': Sys, i: AgentId, t: TaskId)
    requires Init(s) && Runs(s, steps, s') && |s.agents| < 2
    ensures !SearchesDone(s', i, t)
  {
    RunsSameAgents(s, steps, s');
    hide Init, Runs;
    if SearchesDone(s', i, t) {
      assert Reachable(s');
      assert s'.agents.Keys == {i} by { OnlyMember(s'.agents.Keys, i); }
      Single.NeverSearchedAgain(s', i, t);
    }
  }

  /** A finished task is searched again in some run if and only if there is a second worker with its own store, whenever the
      CRM takes events, the cap is positive and some task may be tried again. */
  lemma SearchedAgainIffTwoWorkers(s: Sys, j: nat)
    requires Init(s) && EventsPass(s) && s.crm.run.maxCandidates > 0
    requires j < |s.crm.run.tasks| && s.crm.run.tasks[j].maxAttempts >= 2
    ensures CanSearchDone(s) <==> |s.agents| >= 2
  {
    hide Init, Runs, SearchesDone;
    if |s.agents| >= 2 {
      var i :| i in s.agents;
      assert |s.agents.Keys - {i}| >= 1;
      var next :| next in s.agents.Keys - {i};
      var steps, s' := SearchedTwice(s, i, next, j);
    } else {
      forall steps, s', i, t | Runs(s, steps, s') ensures !SearchesDone(s', i, t) { OneWorkerNeverSearchesDone(s, steps, s', i, t); }
    }
  }
}
