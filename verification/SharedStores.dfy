/** Workers that share a store. The protocol machine gives each worker its own; here a map says which store each worker
    uses, and a step of one worker changes the store of all that share it. Candidates keys stay unique exactly when no two
    workers share a store. */
module SharedStores {
  import opened Contracts
  import opened CrmSpec
  import opened CrmLaws
  import opened StoreSpec
  import opened StoreLaws
  import opened Delivery
  import opened DeliveryLaws
  import opened Protocol
  import opened ProtocolSteps
  import opened ProtocolSessions
  import opened TaskLoop
  import Keys = ProtocolKeys
  import Repeats = RepeatedIds
  import Work = ProtocolWork

  // ---------- the machine with shared stores ----------

  /** Every worker with the same home as i sees the store of i. */
  ghost function Synced(s: Sys, home: AgentId -> nat, i: AgentId): Sys
    requires i in s.agents
  {
    s.(agents := map j | j in s.agents :: if home(j) == home(i) then Agent(s.agents[i].store, s.agents[j].pc) else s.agents[j])
  }

  lemma ActorStays(s: Sys, step: Step)
    requires Enabled(s, step) && !step.World?
    ensures step.i in s.agents && step.i in Apply(s, step).agents
  {
    ActorPresent(s, step);
    Work.Others(s, step);
    hide Enabled, Apply;
  }

  ghost function ApplyShared(s: Sys, home: AgentId -> nat, step: Step): Sys
    requires Enabled(s, step)
  {
    if step.World? then Apply(s, step) else (ActorStays(s, step); Synced(Apply(s, step), home, step.i))
  }

  ghost predicate RunsShared(s: Sys, home: AgentId -> nat, steps: seq<Step>, s': Sys)
    decreases |steps|
  {
    if |steps| == 0 then s == s'
    else Enabled(s, steps[0]) && RunsShared(ApplyShared(s, home, steps[0]), home, steps[1..], s')
  }

  lemma {:induction false} SharedJoin(s: Sys, home: AgentId -> nat, a: seq<Step>, t: Sys, b: seq<Step>, u: Sys)
    requires RunsShared(s, home, a, t) && RunsShared(t, home, b, u)
    ensures RunsShared(s, home, a + b, u)
    decreases |a|
  {
    hide Enabled, ApplyShared;
    if |a| == 0 {
      assert a + b == b;
    } else {
      SharedJoin(ApplyShared(s, home, a[0]), home, a[1..], t, b, u);
      assert (a + b)[1..] == a[1..] + b;
    }
  }

  lemma SharedOne(s: Sys, home: AgentId -> nat, step: Step)
    requires Enabled(s, step)
    ensures RunsShared(s, home, [step], ApplyShared(s, home, step))
  {
    hide Enabled, ApplyShared;
    assert [step][1..] == [];
  }

  // ---------- separate stores ----------

  ghost predicate Separate(s: Sys, home: AgentId -> nat) {
    forall i, j :: i in s.agents && j in s.agents && home(i) == home(j) ==> i == j
  }

  lemma SeparateSame(s: Sys, home: AgentId -> nat, step: Step)
    requires Enabled(s, step) && Separate(s, home)
    ensures ApplyShared(s, home, step) == Apply(s, step) && Separate(Apply(s, step), home)
  {
    if step.World? {
      WorldAgents(s, step.world);
    } else {
      ActorStays(s, step);
      Work.Others(s, step);
      hide Enabled, Apply;
      assert Synced(Apply(s, step), home, step.i).agents == Apply(s, step).agents;
    }
  }

  lemma WorldAgents(s: Sys, w: WorldStep)
    requires WorldEnabled(s, w)
    ensures AfterWorld(s, w).agents == s.agents
  {
  }

  /** With separate stores the machine is the protocol machine. */
  lemma {:induction false} SeparateRuns(s: Sys, home: AgentId -> nat, steps: seq<Step>, s': Sys)
    requires Separate(s, home) && RunsShared(s, home, steps, s')
    ensures Runs(s, steps, s')
    decreases |steps|
  {
    hide Enabled, Apply, ApplyShared, Separate;
    if |steps| > 0 {
      SeparateSame(s, home, steps[0]);
      SeparateRuns(ApplyShared(s, home, steps[0]), home, steps[1..], s');
    }
  }

  // ---------- one worker moves alone ----------

  /** The states differ at most in the stores of other workers. */
  ghost predicate AlikeFor(s: Sys, t: Sys, i: AgentId) {
    && t == s.(agents := t.agents) && t.agents.Keys == s.agents.Keys && i in s.agents && t.agents[i] == s.agents[i]
    && forall j :: j in s.agents ==> t.agents[j].pc == s.agents[j].pc
  }

  /** A step of a worker looks at no other worker. */
  lemma StepAlike(s: Sys, t: Sys, step: Step, i: AgentId)
    requires AlikeFor(s, t, i) && Enabled(s, step) && ActsOnly(step, i)
    ensures Enabled(t, step) && i in Apply(s, step).agents && Apply(t, step) == Apply(s, step).(agents := t.agents[i := Apply(s, step).agents[i]])
  {
    hide Submit, StoreAfter, StoreAfterReplay, CrmAfter, Worked, ClaimTask, EnsureRun, Logged, Finalizes;
    match step
    case Lease(_, l) => LeaseAlike(s, t, i, l);
    case Work(_, w) =>
    case Queue(_, q) => QueueAlike(s, t, i, q);
    case Deliver(_, k, channel) =>
    case Replay(_, k, channel) =>
  }

  lemma LeaseAlike(s: Sys, t: Sys, i: AgentId, l: LeaseStep)
    requires AlikeFor(s, t, i) && LeaseEnabled(s, i, l)
    ensures LeaseEnabled(t, i, l) && i in AfterLease(s, i, l).agents
    ensures AfterLease(t, i, l) == AfterLease(s, i, l).(agents := t.agents[i := AfterLease(s, i, l).agents[i]])
  {
    hide ClaimTask, EnsureRun;
  }

  lemma QueueAlike(s: Sys, t: Sys, i: AgentId, q: QueueStep)
    requires AlikeFor(s, t, i) && QueueEnabled(s, i, q)
    ensures QueueEnabled(t, i, q) && i in AfterQueue(s, i, q).agents
    ensures AfterQueue(t, i, q) == AfterQueue(s, i, q).(agents := t.agents[i := AfterQueue(s, i, q).agents[i]])
  {
  }

  lemma SyncedAlike(s: Sys, home: AgentId -> nat, i: AgentId)
    requires i in s.agents
    ensures AlikeFor(s, Synced(s, home, i), i)
  {
    assert Synced(s, home, i).agents[i] == s.agents[i];
  }

  lemma SyncedAgain(s: Sys, after: Sys, home: AgentId -> nat, i: AgentId)
    requires i in s.agents && OthersSame(s, after, i) && i in after.agents
    ensures Synced(after.(agents := Synced(s, home, i).agents[i := after.agents[i]]), home, i) == Synced(after, home, i)
  {
    assert Synced(after.(agents := Synced(s, home, i).agents[i := after.agents[i]]), home, i).agents == Synced(after, home, i).agents;
  }

  lemma ApplySharedIs(s: Sys, home: AgentId -> nat, step: Step)
    requires Enabled(s, step) && !step.World?
    ensures step.i in Apply(s, step).agents && ApplyShared(s, home, step) == Synced(Apply(s, step), home, step.i)
  {
    ActorStays(s, step);
    hide Enabled, Apply, Synced;
  }

  lemma SoloStep(s: Sys, home: AgentId -> nat, step: Step, i: AgentId)
    requires i in s.agents && Enabled(s, step) && ActsOnly(step, i)
    ensures Enabled(Synced(s, home, i), step) && i in Apply(s, step).agents
    ensures ApplyShared(Synced(s, home, i), home, step) == Synced(Apply(s, step), home, i)
  {
    var t := Synced(s, home, i);
    hide Enabled, Apply, Synced, ApplyShared;
    SyncedAlike(s, home, i);
    StepAlike(s, t, step, i);
    Work.Others(s, step);
    ApplySharedIs(t, home, step);
    SyncedAgain(s, Apply(s, step), home, i);
  }

  lemma {:induction false} SoloSynced(s: Sys, home: AgentId -> nat, steps: seq<Step>, s': Sys, i: AgentId)
    requires i in s.agents && Runs(s, steps, s') && Solo(steps, i)
    ensures i in s'.agents && RunsShared(Synced(s, home, i), home, steps, Synced(s', home, i))
    decreases |steps|
  {
    if |steps| > 0 {
      hide Enabled, Apply, ApplyShared, Synced;
      assert ActsOnly(steps[0], i);
      SoloStep(s, home, steps[0], i);
      assert Solo(steps[1..], i);
      SoloSynced(Apply(s, steps[0]), home, steps[1..], s', i);
    }
  }

  /** Workers with the same home see the same store. */
  ghost predicate Consistent(s: Sys, home: AgentId -> nat) {
    forall i, j :: i in s.agents && j in s.agents && home(i) == home(j) ==> s.agents[i].store == s.agents[j].store
  }

  /** A run in which only worker i moves, seen by the workers that share its store. */
  lemma SoloShared(s: Sys, home: AgentId -> nat, steps: seq<Step>, s': Sys, i: AgentId)
    requires i in s.agents && Consistent(s, home) && Runs(s, steps, s') && Solo(steps, i)
    ensures i in s'.agents && RunsShared(s, home, steps, Synced(s', home, i))
    ensures Consistent(Synced(s', home, i), home) && OthersSame(s, s', i)
  {
    hide Runs, RunsShared, Enabled, Apply;
    assert Synced(s, home, i) == s by { assert Synced(s, home, i).agents == s.agents; }
    SoloSynced(s, home, steps, s', i);
    SoloOthers(s, steps, s', i);
  }

  lemma {:induction false} SoloOthers(s: Sys, steps: seq<Step>, s': Sys, i: AgentId)
    requires i in s.agents && Runs(s, steps, s') && Solo(steps, i)
    ensures OthersSame(s, s', i)
    decreases |steps|
  {
    if |steps| > 0 {
      hide Enabled, Apply;
      assert ActsOnly(steps[0], i);
      Work.Others(s, steps[0]);
      assert Solo(steps[1..], i);
      SoloOthers(Apply(s, steps[0]), steps[1..], s', i);
    }
  }

  // ---------- two workers with one store ----------

  /** Worker a has queued the running event of x and is about to deliver it. */
  ghost predicate Announcing(s: Sys, a: AgentId, x: Exec) {
    && Fresh(s, a) && EventsPass(s) && s.agents[a].pc.Session? && s.agents[a].pc.phase == Draining(ToSearch(x)) && x.attempt == 1
    && s.crm.run.status == RunRunning && s.crm.run.lease.Some? && s.crm.run.candidates == map[]
    && var store, k := s.agents[a].store, EventKey(s.rid, x.event);
       && (forall m :: Queued(store, m) <==> m == k) && k in store.outbox && k !in s.crm.idem
       && (exists source :: store.outbox[k] == Events([StartedEvent(x.event, WorkerTask(x.task, source, 1, x.maxAttempts))]))
       && store.dead == {} && store.baseline == 0 < store.cap && Ordered(store)
  }

  /** The first task of a fresh run is taken under attempt 1. */
  lemma FreshTask(s: Sys, s1: Sys, a: AgentId)
    requires Begins(s) && AtRest(s1, a) && a in s.agents && |s.crm.run.tasks| > 0
    requires exists t :: Opened(s, t, a, 1) && s1.agents[a].store == t.agents[a].store
    ensures var task := ClaimTask(s1.agents[a].store, a, s1.now, 1).1;
      task.Some? && task.value.attempt == 1 && exists j :: 0 <= j < |s.crm.run.tasks| && s.crm.run.tasks[j].id == task.value.id
  {
    var store, claim := s1.agents[a].store, ClaimOf(s.crm.run, s.now, 1, s.nextToken);
    Reloads(s.agents[a].store, claim.tasks, s.now);
    assert Listed(claim.tasks, claim.tasks[0].id);
    FreshRecords(s, a, claim);
    var t := claim.tasks[0].id;
    assert Waits(store, t, s1.now);
    TakesSome(s1, a, t, 1);
    ClaimTaskTakes(store, a, s1.now, 1);
    hide ClaimTask, EnsureRun, Reload;
  }

  /** Every record of a fresh run is untried. */
  lemma FreshRecords(s: Sys, a: AgentId, claim: Claim)
    requires Begins(s) && a in s.agents && claim == ClaimOf(s.crm.run, s.now, 1, s.nextToken)
    ensures var store := EnsureRun(s.agents[a].store, claim, Some(a), s.now);
      && (forall t :: t in store.tasks ==> store.tasks[t].status == Pending && store.tasks[t].attempts == 0 < store.tasks[t].maxAttempts)
      && (forall t :: t in store.tasks <==> Listed(claim.tasks, t))
  {
    Reloads(s.agents[a].store, claim.tasks, s.now);
    var store := EnsureRun(s.agents[a].store, claim, Some(a), s.now);
    forall t | t in store.tasks ensures store.tasks[t].status == Pending && store.tasks[t].attempts == 0 < store.tasks[t].maxAttempts {
      FreshRecord(s, a, claim, t);
    }
    forall t | Listed(claim.tasks, t) ensures t in store.tasks {
      var j :| 0 <= j < |claim.tasks| && claim.tasks[j].id == t;
    }
  }

  lemma FreshRecord(s: Sys, a: AgentId, claim: Claim, t: TaskId)
    requires Begins(s) && a in s.agents && claim == ClaimOf(s.crm.run, s.now, 1, s.nextToken)
    requires t in EnsureRun(s.agents[a].store, claim, Some(a), s.now).tasks
    ensures var r := EnsureRun(s.agents[a].store, claim, Some(a), s.now).tasks[t]; r.status == Pending && r.attempts == 0 < r.maxAttempts
  {
    var run := s.agents[a].store;
    Reloads(run, claim.tasks, s.now);
    assert Listed(claim.tasks, t);
    NothingQueued(run, t);
    var j := LastListed(claim.tasks, t);
    LoadedLast(run, claim, a, s.now, j);
  }

  lemma {:induction false} LastListed(tasks: seq<ClaimedTask>, t: TaskId) returns (j: nat)
    requires Listed(tasks, t)
    ensures LastOf(tasks, j) && tasks[j].id == t
  {
    var n :| 0 <= n < |tasks| && tasks[n].id == t;
    j := Repeats.LastIndex(tasks, n);
  }

  /** Worker a takes the first task and queues its running event, but does not deliver it. */
  lemma Announces(s: Sys, a: AgentId) returns (steps: seq<Step>, s': Sys, x: Exec)
    requires Begins(s) && EventsPass(s) && a in s.agents && s.crm.run.maxCandidates > 0 && |s.crm.run.tasks| > 0
    ensures Runs(s, steps, s') && Solo(steps, a) && Announcing(s', a, x)
    ensures exists j :: 0 <= j < |s.crm.run.tasks| && s.crm.run.tasks[j].id == x.task
    ensures s'.crm.run.tasks == s.crm.run.tasks && s'.writes == []
  {
    hide Runs, Begins, ClaimTask, Executes, Rests, LeftIn, Drained, Willing, Opened;
    BeginsWilling(s, a);
    var j := Repeats.LastIndex(s.crm.run.tasks, 0);
    Repeats.BeginsPending(s, j);
    var s1 := Loads(s, a, j);
    FreshTask(s, s1, a);
    var task := ClaimTask(s1.agents[a].store, a, s1.now, 1).1.value;
    var s2 := TakesOne(s1, a, 1);
    x := Exec(s2.nextEvent, task.id, task.attempt, task.maxAttempts);
    s' := QueuesStart(s2, a, task, x);
    RunsJoin(s, Opening(a, 1) + [Work(a, DrainEnds)], s1, [Step.Lease(a, TakeTask(1)), Step.Lease(a, Renew(1))], s2);
    steps := Opening(a, 1) + [Work(a, DrainEnds)] + [Step.Lease(a, TakeTask(1)), Step.Lease(a, Renew(1))];
    RunsJoin(s, steps, s2, [Queue(a, StartTask)], s');
    steps := steps + [Queue(a, StartTask)];
  }

  lemma QueuesStart(s: Sys, a: AgentId, task: WorkerTask, x: Exec) returns (s': Sys)
    requires InOrder(s, a) && s.agents[a].pc.phase == Ready(task) && x == Exec(s.nextEvent, task.id, task.attempt, task.maxAttempts)
    requires task.attempt == 1 && s.crm.run.status == RunRunning && s.crm.run.candidates == map[] && s.agents[a].store.baseline == 0
    requires Executes(s.agents[a].store, task, a, s.now)
    ensures Runs(s, [Queue(a, StartTask)], s') && Announcing(s', a, x)
    ensures s'.crm == s.crm && s'.writes == s.writes
  {
    hide Runs, Drained;
    var e := StartedEvent(s.nextEvent, task);
    StartSaves(s, a, e, x);
    SentStore(s.agents[a].store, s.rid, e);
    QueuedOnly(s.agents[a].store, s.rid, e);
    QueueRuns(s, a, StartTask);
    s' := AfterQueue(s, a, StartTask);
    assert s'.agents[a].store.outbox[EventKey(s.rid, x.event)]
      == Events([StartedEvent(x.event, WorkerTask(x.task, task.source, 1, x.maxAttempts))]);
    hide AfterQueue, QueueEnabled, Queued;
  }

  lemma QueuedOnly(store: MemoryRun, r: RunId, e: RunEvent)
    requires Drained(store) && EventKey(r, e.id) !in store.outbox && Tidy(store)
    ensures forall m :: Queued(SaveEvent(store, r, e), m) <==> m == EventKey(r, e.id)
  {
    forall m | m != EventKey(r, e.id) ensures !Queued(SaveEvent(store, r, e), m) { assert !Queued(store, m); }
  }

  /** What worker b finds when worker a's lease has run out: only a's running event is queued, and the task is untried. */
  ghost predicate FindsEvent(s: Sys, b: AgentId, j: nat, k: Key, e: RunEvent) {
    && Fresh(s, b) && EventsPass(s) && s.agents[b].pc == Idle && Claimable(s.crm.run, s.now) && s.crm.run.candidates == map[]
    && LastOf(s.crm.run.tasks, j) && s.crm.run.tasks[j].status == Pending && s.crm.run.tasks[j].attempts == 0 < s.crm.run.tasks[j].maxAttempts
    && var store := s.agents[b].store;
       && (forall m :: Queued(store, m) <==> m == k) && k in store.outbox && store.outbox[k] == Events([e]) && k !in s.crm.idem
       && e.status == Some(Running) && k.EventKey? && k.run == s.rid && store.dead == {} && store.baseline == 0 < store.cap && Ordered(store)
  }

  /** Worker b delivers that event with its own token, and then searches the same task under the same attempt. */
  lemma TakesOver(s: Sys, b: AgentId, j: nat, k: Key, e: RunEvent) returns (steps: seq<Step>, s': Sys, y: Exec)
    requires FindsEvent(s, b, j, k, e)
    ensures Runs(s, steps, s') && Solo(steps, b) && Searches(s', b, y) && y.task == s.crm.run.tasks[j].id && y.attempt == 1
    ensures s'.writes == s.writes && s'.rid == s.rid
  {
    hide Runs, AtRest, Searches, Waits;
    assert j < |s.crm.run.tasks|;
    hide FindsEvent;
    var s1;
    steps, s1 := SendsForeign(s, b, j, k, e);
    var more, others, source;
    more, s', y, others, source := Reaches(s1, b, s.crm.run.tasks[j].id, 1);
    RunsJoin(s, steps, s1, more, s');
    steps := steps + more;
  }

  /** Worker b opens a session and delivers the event that it finds queued. */
  lemma SendsForeign(s: Sys, b: AgentId, j: nat, k: Key, e: RunEvent) returns (steps: seq<Step>, s3: Sys)
    requires FindsEvent(s, b, j, k, e)
    ensures Runs(s, steps, s3) && Solo(steps, b) && AtRest(s3, b) && Waits(s3.agents[b].store, s.crm.run.tasks[j].id, s3.now)
    ensures s3.agents[b].store.tasks[s.crm.run.tasks[j].id].attempts == 0 && s3.writes == s.writes && s3.rid == s.rid
  {
    hide Runs, Rests, EnsureRun, QueuedCompletion, ApplyEvents, Executes, Spared, Searches, AtRest, LoadedAs;
    NotCompleted(s.agents[b].store, k, e, s.crm.run.tasks[j].id);
    var s1 := OpensWith(s, b, j, 1);
    assert Queued(s.agents[b].store, k);
    OpenedDelivers(s, s1, b, k);
    var s2 := Sends(s1, b, k, e);
    RunsJoin(s, Opening(b, 1), s1, [Deliver(b, k, Answered)], s2);
    DeliveredAll(s.agents[b].store, s1.agents[b].store, s2.agents[b].store, k);
    s3 := Drains(s2, b);
    steps := Opening(b, 1) + [Deliver(b, k, Answered)];
    RunsJoin(s, steps, s2, [Work(b, DrainEnds)], s3);
    steps := steps + [Work(b, DrainEnds)];
    OverAtRest(s, s1, s2, s3, b, j, k, e);
  }

  lemma DeliveredAll(a: MemoryRun, b: MemoryRun, c: MemoryRun, k: Key)
    requires (forall m :: Queued(a, m) <==> m == k) && SameOutbox(a, b) && c == MarkDelivered(b, k) && Tidy(a) && k in a.outbox
    ensures Drained(c) && Tidy(c) && c.outbox == a.outbox && c.dead == a.dead && c.cap == a.cap && c.baseline == b.baseline
  {
    forall m ensures !Queued(c, m) { if m != k { assert !Queued(a, m); } }
  }

  lemma OverAtRest(s: Sys, s1: Sys, s2: Sys, s3: Sys, b: AgentId, j: nat, k: Key, e: RunEvent)
    requires FindsEvent(s, b, j, k, e) && Opened(s, s1, b, 1)
    requires var x, y := s.agents[b].store, s1.agents[b].store;
      Rests(y, s.now) && y.baseline == Max(x.baseline, |s.crm.run.candidates|) && LoadedAs(y, s.crm.run.tasks[j], s.now)
    requires s2.agents == s1.agents[b := Agent(MarkDelivered(s1.agents[b].store, k), s1.agents[b].pc)]
    requires s2.crm == s1.crm.(idem := s1.crm.idem[k := Events([e])], run := s2.crm.run) && s2.crm.run.lease == s1.crm.run.lease
    requires s2 == s1.(agents := s2.agents, crm := s2.crm, log := s2.log, reserved := s2.reserved)
    requires s3 == With(s2, b, s2.agents[b].store, Resumed(s2.agents[b].pc))
    requires var z := s3.agents[b].store; Drained(z) && Tidy(z) && z.outbox == s.agents[b].store.outbox && z.dead == {} && z.cap == s.agents[b].store.cap
    ensures AtRest(s3, b) && Waits(s3.agents[b].store, s.crm.run.tasks[j].id, s3.now)
    ensures s3.agents[b].store.tasks[s.crm.run.tasks[j].id].attempts == 0 && s3.writes == s.writes && s3.rid == s.rid
  {
    hide EnsureRun;
    SameTasksSame(s1.agents[b].store, s3.agents[b].store, WorkerTask(0, GooglePlaces, 0, 0), b, s.now);
    hide Rests, Drained;
  }

  /** Both workers now search the task, and the outbox they share is drained. */
  lemma BothWrite(s: Sys, home: AgentId -> nat, a: AgentId, b: AgentId, x: Exec, y: Exec, c: Candidate)
    returns (steps: seq<Step>, s': Sys)
    requires Searches(s, b, y) && a != b && a in s.agents && home(a) == home(b) && Consistent(s, home) && s.writes == []
    requires s.agents[a].pc.Session? && s.agents[a].pc.phase == Draining(ToSearch(x)) && x.task == y.task && x.attempt == y.attempt
    ensures RunsShared(s, home, steps, s') && Repeats.KeyUsedTwice(s')
  {
    assert s.agents[a].store == s.agents[b].store && Drained(s.agents[a].store);
    assert At(s.agents[b].pc, Searching) && s.agents[b].pc.phase.exec == y;
    hide RunsShared, Searches, Consistent, Repeats.KeyUsedTwice;
    var s1 := SharedDrain(s, home, a, x);
    steps, s' := BothSave(s1, home, a, b, x, y, c);
    SharedJoin(s, home, [Work(a, DrainEnds)], s1, steps, s');
    steps := [Work(a, DrainEnds)] + steps;
  }

  lemma BothSave(s: Sys, home: AgentId -> nat, a: AgentId, b: AgentId, x: Exec, y: Exec, c: Candidate)
    returns (steps: seq<Step>, s': Sys)
    requires a in s.agents && b in s.agents && a != b && s.writes == [] && x.task == y.task && x.attempt == y.attempt
    requires At(s.agents[a].pc, Searching) && s.agents[a].pc.phase.exec == x && At(s.agents[b].pc, Searching) && s.agents[b].pc.phase.exec == y
    ensures RunsShared(s, home, steps, s') && Repeats.KeyUsedTwice(s')
  {
    hide RunsShared;
    var t := SharedSave(s, home, b, y, c);
    s' := SharedSave(t, home, a, x, c);
    SharedJoin(s, home, [Queue(b, Save([c]))], t, [Queue(a, Save([c]))], s');
    steps := [Queue(b, Save([c]))] + [Queue(a, Save([c]))];
    assert s'.writes[0] == y && s'.writes[1] == x;
  }

  lemma SharedDrain(s: Sys, home: AgentId -> nat, a: AgentId, x: Exec) returns (s': Sys)
    requires a in s.agents && s.agents[a].pc.Session? && s.agents[a].pc.phase == Draining(ToSearch(x)) && Drained(s.agents[a].store)
    ensures RunsShared(s, home, [Work(a, DrainEnds)], s') && s'.writes == s.writes && s'.agents.Keys == s.agents.Keys
    ensures forall j :: j in s.agents && j != a ==> s'.agents[j].pc == s.agents[j].pc
    ensures At(s'.agents[a].pc, Searching) && s'.agents[a].pc.phase.exec == x
  {
    hide RunsShared, Drained;
    s' := ApplyShared(s, home, Work(a, DrainEnds));
    SharedOne(s, home, Work(a, DrainEnds));
  }

  lemma SharedSave(s: Sys, home: AgentId -> nat, i: AgentId, x: Exec, c: Candidate) returns (s': Sys)
    requires i in s.agents && At(s.agents[i].pc, Searching) && s.agents[i].pc.phase.exec == x
    ensures RunsShared(s, home, [Queue(i, Save([c]))], s') && s'.writes == s.writes + [x] && s'.agents.Keys == s.agents.Keys
    ensures forall j :: j in s.agents && j != i ==> s'.agents[j].pc == s.agents[j].pc
  {
    hide RunsShared;
    s' := ApplyShared(s, home, Queue(i, Save([c])));
    SharedOne(s, home, Queue(i, Save([c])));
  }

  /** Two workers with one store can search a task under the same attempt: one of them stops with its running event
      queued, the other delivers that event and takes the task itself, and the first goes on to search. */
  lemma SharedStoreRepeatsKey(s: Sys, home: AgentId -> nat, a: AgentId, b: AgentId) returns (steps: seq<Step>, s': Sys)
    requires Init(s) && EventsPass(s) && a in s.agents && b in s.agents && a != b && home(a) == home(b)
    requires s.crm.run.maxCandidates > 0 && |s.crm.run.tasks| > 0
    ensures RunsShared(s, home, steps, s') && Repeats.KeyUsedTwice(s')
  {
    BeginsWilling(s, a);
    BeginsWilling(s, b);
    BeginsConsistent(s, home);
    hide Runs, RunsShared, Init, Begins, Repeats.KeyUsedTwice, Willing, Announcing, Consistent, Synced, Solo, FindsEvent, Searches;
    var sA, x;
    steps, sA, x := Announces(s, a);
    SoloShared(s, home, steps, sA, a);
    var qA := Synced(sA, home, a);
    var j, k, e, ticks, qB := Waiting(s, sA, home, a, b, x);
    SharedJoin(s, home, steps, qA, [World(Tick(ticks))], qB);
    steps := steps + [World(Tick(ticks))];
    var more, sC, y := TakesOver(qB, b, j, k, e);
    SoloShared(qB, home, more, sC, b);
    SharedJoin(s, home, steps, qB, more, Synced(sC, home, b));
    steps := steps + more;
    StillThere(qB, sC, home, a, b, x, y);
    more, s' := BothWrite(Synced(sC, home, b), home, a, b, x, y, Candidate(None, 0));
    SharedJoin(s, home, steps, Synced(sC, home, b), more, s');
    steps := steps + more;
  }

  lemma BeginsConsistent(s: Sys, home: AgentId -> nat)
    requires Begins(s)
    ensures Consistent(s, home)
  {
  }

  /** Time passes until worker a's lease has run out. */
  lemma Waiting(s: Sys, sA: Sys, home: AgentId -> nat, a: AgentId, b: AgentId, x: Exec) returns (j: nat, k: Key, e: RunEvent, ticks: nat, qB: Sys)
    requires Init(s) && Announcing(sA, a, x) && OthersSame(s, sA, a) && a != b && b in s.agents && home(a) == home(b) && s.agents[b].pc == Idle
    requires sA.crm.run.tasks == s.crm.run.tasks && sA.writes == [] && exists j :: 0 <= j < |s.crm.run.tasks| && s.crm.run.tasks[j].id == x.task
    requires Consistent(Synced(sA, home, a), home)
    ensures RunsShared(Synced(sA, home, a), home, [World(Tick(ticks))], qB)
    ensures FindsEvent(qB, b, j, k, e) && qB.crm.run.tasks[j].id == x.task && qB.writes == [] && Consistent(qB, home)
    ensures a in qB.agents && b in qB.agents && x.attempt == 1
    ensures qB.agents[a].pc.Session? && qB.agents[a].pc.phase == Draining(ToSearch(x))
  {
    hide RunsShared;
    var qA := Synced(sA, home, a);
    ticks := qA.crm.run.lease.value.expires;
    qB := AfterWorld(qA, Tick(ticks));
    assert Enabled(qA, World(Tick(ticks))) && ApplyShared(qA, home, World(Tick(ticks))) == qB;
    SharedOne(qA, home, World(Tick(ticks)));
    j :| 0 <= j < |s.crm.run.tasks| && s.crm.run.tasks[j].id == x.task;
    k := EventKey(sA.rid, x.event);
    e := sA.agents[a].store.outbox[k].events[0];
    assert qB.agents[b] == Agent(sA.agents[a].store, Idle);
    Repeats.BeginsPending(s, j);
    hide Enabled, ApplyShared, Begins, Queued;
  }

  lemma StillThere(s: Sys, sC: Sys, home: AgentId -> nat, a: AgentId, b: AgentId, x: Exec, y: Exec)
    requires a in s.agents && a != b && OthersSame(s, sC, b) && Searches(sC, b, y) && home(a) == home(b)
    requires s.agents[a].pc.Session? && s.agents[a].pc.phase == Draining(ToSearch(x))
    ensures var t := Synced(sC, home, b); Searches(t, b, y) && a in t.agents && t.agents[a].pc == s.agents[a].pc && t.writes == sC.writes
  {
    assert Synced(sC, home, b).agents[b] == sC.agents[b];
    hide Executes, Drained;
  }

  // ---------- exactly when keys are unique ----------

  /** In no run with these stores is a candidates key used twice. */
  ghost predicate KeysStayUnique(s: Sys, home: AgentId -> nat) {
    forall steps, s' :: RunsShared(s, home, steps, s') ==> !Repeats.KeyUsedTwice(s')
  }

  /** Any number of workers, restarts and lost messages: candidates keys stay unique if and only if no two workers share a
      store, whenever the CRM takes events, the cap is positive and there is a task. */
  lemma KeysAreUniqueIffStoresAreSeparate(s: Sys, home: AgentId -> nat)
    requires Init(s) && EventsPass(s) && s.crm.run.maxCandidates > 0 && |s.crm.run.tasks| > 0
    ensures KeysStayUnique(s, home) <==> Separate(s, home)
  {
    hide Init, RunsShared, Repeats.KeyUsedTwice;
    if Separate(s, home) {
      Repeats.DistinctKeysUnique(s) by { InitMeans(s); }
      forall steps, s' | RunsShared(s, home, steps, s') ensures !Repeats.KeyUsedTwice(s') { SeparateRuns(s, home, steps, s'); }
    } else {
      var a, b :| a in s.agents && b in s.agents && home(a) == home(b) && a != b;
      var steps, s' := SharedStoreRepeatsKey(s, home, a, b);
    }
  }

  lemma InitMeans(s: Sys)
    requires Init(s)
    ensures Begins(s) && DistinctIds(s.crm.run.tasks)
  {
  }
}
