/** Several stores for one run: a failure report that arrives late can leave a task pending with no attempt left. When
    that happens, that nothing else causes it, and that it takes a second worker. */
module Stranding {
  import opened Contracts
  import opened CrmSpec
  import opened CrmLaws
  import opened StoreSpec
  import opened StoreLaws
  import opened Delivery
  import opened DeliveryLaws
  import opened Protocol
  import opened ProtocolSteps
  import opened ProtocolSessions
  import opened TaskLoop
  import Keys = ProtocolKeys
  import Leases = ProtocolLeases
  import Ends = ProtocolTerminal
  import Single = ProtocolSingle
  import Work = ProtocolWork

  // ---------- what strands a task ----------

  /** On the CRM the task is pending, and all its attempts have been counted. */
  predicate StrandedAt(run: FakeRun, j: nat)
    requires j < |run.tasks|
  {
    run.tasks[j].status == Pending && run.tasks[j].attempts >= run.tasks[j].maxAttempts
  }

  /** The message reports that an execution of task t failed and that the task is to be tried again. */
  predicate SaysPending(p: Payload, t: TaskId) {
    p.Events? && |p.events| == 1 && p.events[0].task == Some(t) && p.events[0].status == Some(Pending)
  }

  /** A queued report that says so reaches the CRM for the first time, under the current lease, when the CRM has already
      counted the last attempt of the task. */
  ghost predicate LateFailure(s: Sys, step: Step, j: nat)
    requires j < |s.crm.run.tasks|
  {
    && step.Deliver? && CanDeliver(s, step.i, step.key) && step.channel != RequestLost
    && SaysPending(s.agents[step.i].store.outbox[step.key], s.crm.run.tasks[j].id)
    && step.key !in s.crm.idem && !s.refuses(s.agents[step.i].store.outbox[step.key])
    && ValidLease(s.crm.run, s.agents[step.i].pc.token, s.now)
    && s.crm.run.tasks[j].attempts >= s.crm.run.tasks[j].maxAttempts
  }

  /** Events about other tasks, running events and final reports strand nothing. */
  lemma EventStrands(tasks: seq<ClaimedTask>, e: RunEvent, j: nat)
    requires DistinctIds(tasks) && j < |tasks| && Leases.GoodEvent(e)
    ensures var after := ApplyEvents(tasks, [e])[j];
      (after.status == Pending && after.attempts >= after.maxAttempts)
      <==> if e.task != Some(tasks[j].id) then tasks[j].status == Pending && tasks[j].attempts >= tasks[j].maxAttempts
           else e.status == Some(Pending) && tasks[j].attempts >= tasks[j].maxAttempts
  {
    ApplyEventExact(tasks, e);
  }

  /** The CRM accepts the message for the first time. */
  ghost predicate FirstArrival(s: Sys, i: AgentId, k: Key, channel: Channel)
    requires CanDeliver(s, i, k)
  {
    && channel != RequestLost && k !in s.crm.idem && !s.refuses(s.agents[i].store.outbox[k])
    && ValidLease(s.crm.run, s.agents[i].pc.token, s.now)
  }

  lemma DeliveryTasks(s: Sys, i: AgentId, k: Key, channel: Channel)
    requires CanDeliver(s, i, k)
    ensures var p := s.agents[i].store.outbox[k];
      Delivered(s, i, k, channel).crm.run.tasks
      == if p.Events? && FirstArrival(s, i, k, channel) then ApplyEvents(s.crm.run.tasks, p.events) else s.crm.run.tasks
  {
    hide ApplyEvents, UpsertAll, StoreAfter, Reserves, Finalizes, Logged;
  }

  lemma DeliveryStrands(s: Sys, i: AgentId, k: Key, channel: Channel, j: nat)
    requires CanDeliver(s, i, k) && DistinctIds(s.crm.run.tasks) && Leases.Shaped(s.agents[i].store)
    requires j < |s.crm.run.tasks| && !StrandedAt(s.crm.run, j)
    ensures |Delivered(s, i, k, channel).crm.run.tasks| == |s.crm.run.tasks|
    ensures StrandedAt(Delivered(s, i, k, channel).crm.run, j) <==> LateFailure(s, Deliver(i, k, channel), j)
  {
    var p := s.agents[i].store.outbox[k];
    DeliveryTasks(s, i, k, channel);
    if p.Events? {
      assert p.events == [p.events[0]];
      EventStrands(s.crm.run.tasks, p.events[0], j);
    }
    hide ApplyEvents, Delivered, Leases.GoodEvent;
  }

  lemma CancelStrandsNothing(run: FakeRun, j: nat)
    requires j < |run.tasks| && !StrandedAt(run, j)
    ensures !StrandedAt(CancelRun(run), j)
  {
  }

  lemma ReplaySpares(s: Sys, i: AgentId, k: Key, channel: Channel)
    requires CanReplay(s, i, k)
    ensures Replayed(s, i, k, channel).crm.run.tasks == s.crm.run.tasks
  {
    hide StoreAfterReplay;
  }

  lemma LeaseSpares(s: Sys, i: AgentId, l: LeaseStep)
    requires LeaseEnabled(s, i, l)
    ensures AfterLease(s, i, l).crm.run.tasks == s.crm.run.tasks
  {
    hide ClaimTask, EnsureRun;
  }

  lemma OtherStepsStrandNothing(s: Sys, step: Step, j: nat)
    requires Enabled(s, step) && !step.Deliver? && j < |s.crm.run.tasks| && !StrandedAt(s.crm.run, j)
    ensures |Apply(s, step).crm.run.tasks| == |s.crm.run.tasks| && !StrandedAt(Apply(s, step).crm.run, j)
  {
    hide LeaseEnabled, QueueEnabled, CanReplay, AfterLease, AfterQueue, Replayed, Worked;
    match step
    case World(_) => CancelStrandsNothing(s.crm.run, j);
    case Lease(i, l) => LeaseSpares(s, i, l);
    case Work(_, _) =>
    case Queue(i, q) => Ends.QueueChanges(s, i, q);
    case Replay(i, k, channel) => ReplaySpares(s, i, k, channel);
  }

  lemma StepStrands(s: Sys, step: Step, j: nat)
    requires Keys.Inv(s) && Leases.Inv(s) && Enabled(s, step) && j < |s.crm.run.tasks| && !StrandedAt(s.crm.run, j)
    ensures |Apply(s, step).crm.run.tasks| == |s.crm.run.tasks|
    ensures StrandedAt(Apply(s, step).crm.run, j) <==> LateFailure(s, step, j)
  {
    hide Delivered, LateFailure;
    if step.Deliver? {
      assert Keys.Common(s) && Leases.Steady(s.now, step.i, s.agents[step.i]);
      hide Keys.Inv, Leases.Inv;
      DeliveryStrands(s, step.i, step.key, step.channel, j);
    } else {
      hide Keys.Inv, Leases.Inv;
      OtherStepsStrandNothing(s, step, j);
      NotLate(s, step, j);
      hide Apply, Enabled;
    }
  }

  lemma NotLate(s: Sys, step: Step, j: nat)
    requires j < |s.crm.run.tasks| && !step.Deliver?
    ensures !LateFailure(s, step, j)
  {
  }

  /** Any number of workers: a step strands a task if and only if it is the first arrival of a report that says pending,
      after the CRM has counted the task's last attempt. */
  lemma StepStrandsIffLateFailure(s: Sys, step: Step, j: nat)
    requires Reachable(s) && Enabled(s, step) && j < |s.crm.run.tasks| && !StrandedAt(s.crm.run, j)
    ensures |Apply(s, step).crm.run.tasks| == |s.crm.run.tasks|
    ensures StrandedAt(Apply(s, step).crm.run, j) <==> LateFailure(s, step, j)
  {
    Keys.ReachableInv(s);
    Leases.ReachableInv(s);
    hide Reachable, Keys.Inv, Leases.Inv, Enabled, Apply, LateFailure;
    StepStrands(s, step, j);
  }

  // ---------- how a run gets there ----------

  /** The task is running on the CRM, with so many attempts counted; nobody holds a valid lease. */
  ghost predicate Lapsed(s: Sys, j: nat, attempts: nat) {
    && j < |s.crm.run.tasks| && DistinctIds(s.crm.run.tasks) && EventsPass(s) && s.crm.run.candidates == map[]
    && s.crm.run.tasks[j].status == Running && s.crm.run.tasks[j].attempts == attempts && Claimable(s.crm.run, s.now)
  }

  /** The worker can start a session; `waiting` is the only message it still has queued. */
  ghost predicate Stopped(s: Sys, i: AgentId, waiting: set<Key>) {
    && Willing(s, i) && s.agents[i].pc == Idle && forall k :: Queued(s.agents[i].store, k) <==> k in waiting
  }

  lemma DistinctLast(tasks: seq<ClaimedTask>, j: nat)
    requires DistinctIds(tasks) && j < |tasks|
    ensures LastOf(tasks, j)
  {
  }

  /** With distinct ids an execution's running event sets the task running with the attempt it carries. */
  lemma GotRunning(s: Sys, s': Sys, i: AgentId, x: Exec, others: seq<ClaimedTask>, source: SourceName, j: nat)
    requires Got(s, s', i, x, others, source) && DistinctIds(s.crm.run.tasks) && j < |s.crm.run.tasks|
    requires x.task == s.crm.run.tasks[j].id && s.crm.run.tasks[j].attempts <= x.attempt
    ensures |s'.crm.run.tasks| == |s.crm.run.tasks| && DistinctIds(s'.crm.run.tasks)
    ensures s'.crm.run.tasks[j] == s.crm.run.tasks[j].(status := Running, attempts := x.attempt, found := s'.crm.run.tasks[j].found,
                                                      discarded := s'.crm.run.tasks[j].discarded)
  {
    assert DistinctIds(others);
    ApplyEventExact(others, StartedEvent(x.event, WorkerTask(x.task, source, x.attempt, x.maxAttempts)));
    hide Searches, Onward;
  }

  /** The worker loads the claim, reaches the task and searches it. */
  lemma SearchesTask(s: Sys, i: AgentId, j: nat) returns (steps: seq<Step>, s': Sys, x: Exec)
    requires Willing(s, i) && s.agents[i].pc.Idle? && Claimable(s.crm.run, s.now) && Drained(s.agents[i].store) && s.crm.run.candidates == map[]
    requires j < |s.crm.run.tasks| && DistinctIds(s.crm.run.tasks) && s.crm.run.tasks[j].status.Open()
    requires s.crm.run.tasks[j].attempts < s.crm.run.tasks[j].maxAttempts
    ensures Runs(s, steps, s') && Searches(s', i, x) && Since(s, s', i)
    ensures SearchedAs(s.crm.run.tasks, s'.crm.run, x, j) && x.attempt == s.crm.run.tasks[j].attempts + 1
  {
    hide Runs, Rests, Spared, ApplyEvents, Executes, Drained, Searches, InOrder, AtRest;
    var t := s.crm.run.tasks[j].id;
    DistinctLast(s.crm.run.tasks, j);
    var s1 := Loads(s, i, j);
    var more, others, source;
    more, s', x, others, source := Reaches(s1, i, t, 1);
    GotRunning(s1, s', i, x, others, source, j);
    RunsJoin(s, Opening(i, 1) + [Work(i, DrainEnds)], s1, more, s');
    steps := Opening(i, 1) + [Work(i, DrainEnds)] + more;
  }

  /** The CRM has task j running under the attempt of the search. */
  ghost predicate SearchedAs(before: seq<ClaimedTask>, run: FakeRun, x: Exec, j: nat) {
    && j < |before| && |run.tasks| == |before| && DistinctIds(run.tasks) && run.candidates == map[] && run.status == RunRunning
    && x.task == before[j].id && x.maxAttempts == before[j].maxAttempts
    && run.tasks[j].id == before[j].id && run.tasks[j].maxAttempts == before[j].maxAttempts
    && run.tasks[j].status == Running && run.tasks[j].attempts == x.attempt
  }

  /** The other worker takes the task once more, and stops while it searches. */
  lemma UsesOne(s: Sys, i: AgentId, j: nat) returns (steps: seq<Step>, s': Sys)
    requires Stopped(s, i, {}) && j < |s.crm.run.tasks| && Lapsed(s, j, s.crm.run.tasks[j].attempts)
    requires s.crm.run.tasks[j].attempts < s.crm.run.tasks[j].maxAttempts
    ensures Runs(s, steps, s') && Stopped(s', i, {}) && Lapsed(s', j, s.crm.run.tasks[j].attempts + 1)
    ensures Since(s, s', i) && |s'.crm.run.tasks| == |s.crm.run.tasks|
    ensures s'.crm.run.tasks[j].id == s.crm.run.tasks[j].id && s'.crm.run.tasks[j].maxAttempts == s.crm.run.tasks[j].maxAttempts
  {
    assert Drained(s.agents[i].store);
    hide Runs, Queued, Fresh;
    var t, x;
    steps, t, x := SearchesTask(s, i, j);
    s' := Lapses(t, i);
    SearchedStops(t, s', i, x);
    RunsJoin(s, steps, t, [Work(i, Leave), World(Tick(t.crm.run.lease.value.expires))], s');
    steps := steps + [Work(i, Leave), World(Tick(t.crm.run.lease.value.expires))];
  }

  lemma SearchedStops(s: Sys, s': Sys, i: AgentId, x: Exec)
    requires Searches(s, i, x) && s.crm.run.candidates == map[] && s' == With(s, i, s.agents[i].store, Idle).(now := s'.now)
    ensures Stopped(s', i, {})
  {
    assert Drained(s'.agents[i].store);
  }

  /** Only worker i and the CRM moved, and every key that is new to the CRM is that of a new event. */
  ghost predicate Since(s: Sys, s': Sys, i: AgentId) {
    && s'.rid == s.rid && s'.refuses == s.refuses && OthersSame(s, s', i) && s.nextEvent <= s'.nextEvent
    && s'.crm.run.maxCandidates == s.crm.run.maxCandidates
    && forall k :: k in s'.crm.idem && k !in s.crm.idem ==> k.EventKey? && s.nextEvent <= k.event
  }

  lemma SinceJoins(s: Sys, t: Sys, u: Sys, i: AgentId)
    requires Since(s, t, i) && Since(t, u, i)
    ensures Since(s, u, i)
  {
  }

  /** ... until the last attempt is counted. */
  lemma {:induction false} UsesAll(s: Sys, i: AgentId, j: nat) returns (steps: seq<Step>, s': Sys)
    requires Stopped(s, i, {}) && j < |s.crm.run.tasks| && Lapsed(s, j, s.crm.run.tasks[j].attempts)
    requires s.crm.run.tasks[j].attempts <= s.crm.run.tasks[j].maxAttempts
    ensures Runs(s, steps, s') && Stopped(s', i, {}) && Lapsed(s', j, s.crm.run.tasks[j].maxAttempts) && Since(s, s', i)
    ensures s'.crm.run.tasks[j].id == s.crm.run.tasks[j].id && s'.crm.run.tasks[j].maxAttempts == s.crm.run.tasks[j].maxAttempts
    decreases s.crm.run.tasks[j].maxAttempts - s.crm.run.tasks[j].attempts
  {
    if s.crm.run.tasks[j].attempts == s.crm.run.tasks[j].maxAttempts {
      steps, s' := [], s;
    } else {
      hide Runs, Stopped, Since;
      var first, t, rest;
      first, t := UsesOne(s, i, j);
      rest, s' := UsesAll(t, i, j);
      RunsJoin(s, first, t, rest, s');
      SinceJoins(s, t, s', i);
      steps := first + rest;
    }
  }

  // ---------- the failure that is reported late ----------

  function FailureEvent(id: EventId, t: TaskId): RunEvent {
    RunEvent(id, Some(t), Some(Pending), None, None, None, None, false)
  }

  /** The search ends in an exception: the task is given back and the report is queued. */
  lemma Fails(s: Sys, i: AgentId, x: Exec) returns (steps: seq<Step>, s': Sys)
    requires Searches(s, i, x) && x.attempt < x.maxAttempts
    ensures Runs(s, steps, s')
    ensures s' == With(s, i, SaveEvent(FailTask(s.agents[i].store, x.task, i), s.rid, FailureEvent(s.nextEvent, x.task)),
                       Session(s.agents[i].pc.token, Draining(ToTop))).(nextEvent := s.nextEvent + 1)
  {
    hide Runs, SaveEvent, FailTask;
    var t := AfterWork(s, i, Raise);
    RunsOne(s, Work(i, Raise));
    hide Searches;
    var u := AfterWork(t, i, GiveBack);
    RunsNext(s, [Work(i, Raise)], t, Work(i, GiveBack));
    s' := FailureQueued(u, i, x);
    RunsJoin(s, [Work(i, Raise)] + [Work(i, GiveBack)], u, [Queue(i, ReportFailure(FailureEvent(u.nextEvent, x.task)))], s');
    steps := [Work(i, Raise)] + [Work(i, GiveBack)] + [Queue(i, ReportFailure(FailureEvent(u.nextEvent, x.task)))];
  }

  lemma FailureQueued(s: Sys, i: AgentId, x: Exec) returns (s': Sys)
    requires i in s.agents && At(s.agents[i].pc, Failing) && s.agents[i].pc.phase.exec == x && x.attempt < x.maxAttempts
    ensures Runs(s, [Queue(i, ReportFailure(FailureEvent(s.nextEvent, x.task)))], s')
    ensures s' == With(s, i, SaveEvent(s.agents[i].store, s.rid, FailureEvent(s.nextEvent, x.task)),
                       Session(s.agents[i].pc.token, Draining(ToTop))).(nextEvent := s.nextEvent + 1)
  {
    hide Runs;
    QueueRuns(s, i, ReportFailure(FailureEvent(s.nextEvent, x.task)));
    s' := AfterQueue(s, i, ReportFailure(FailureEvent(s.nextEvent, x.task)));
  }

  lemma FailedStore(store: MemoryRun, r: RunId, i: AgentId, t: TaskId, e: RunEvent)
    requires Tidy(store) && Drained(store) && EventKey(r, e.id) !in store.outbox && Ordered(store)
    ensures var after := SaveEvent(FailTask(store, t, i), r, e);
      && Tidy(after) && Ordered(after) && after.outbox == store.outbox[EventKey(r, e.id) := Events([e])]
      && (forall k :: Queued(after, k) <==> k == EventKey(r, e.id))
      && after.dead == store.dead && after.baseline == store.baseline && after.cap == store.cap
  {
    forall k | k != EventKey(r, e.id) ensures !Queued(SaveEvent(FailTask(store, t, i), r, e), k) { assert !Queued(store, k); }
  }

  /** A worker with a failure report for task t still queued. */
  ghost predicate Owes(s: Sys, i: AgentId, k: Key, t: TaskId) {
    && Stopped(s, i, {k}) && k.EventKey? && k.event < s.nextEvent && k !in s.crm.idem
    && k in s.agents[i].store.outbox && s.agents[i].store.outbox[k] == Events([FailureEvent(k.event, t)])
  }

  /** The worker searches task j under its first attempt. */
  ghost predicate SearchesFirst(s: Sys, i: AgentId, x: Exec, j: nat) {
    && Searches(s, i, x) && x.attempt == 1 && j < |s.crm.run.tasks| && DistinctIds(s.crm.run.tasks) && s.crm.run.candidates == map[]
    && s.crm.run.status == RunRunning && x.task == s.crm.run.tasks[j].id && x.maxAttempts == s.crm.run.tasks[j].maxAttempts
    && s.crm.run.tasks[j].status == Running && s.crm.run.tasks[j].attempts == 1
  }

  lemma FirstSearch(s: Sys, i: AgentId, j: nat) returns (steps: seq<Step>, s': Sys, x: Exec)
    requires Init(s) && EventsPass(s) && i in s.agents && s.crm.run.maxCandidates > 0 && j < |s.crm.run.tasks|
    ensures Runs(s, steps, s') && SearchesFirst(s', i, x, j) && Since(s, s', i)
    ensures s'.crm.run.tasks[j].id == s.crm.run.tasks[j].id && s'.crm.run.tasks[j].maxAttempts == s.crm.run.tasks[j].maxAttempts
  {
    BeginsWilling(s, i);
    InitTask(s, j);
    hide Runs, Init, Searches, Drained, Willing;
    steps, s', x := SearchesTask(s, i, j);
  }

  lemma InitTask(s: Sys, j: nat)
    requires Init(s) && j < |s.crm.run.tasks|
    ensures DistinctIds(s.crm.run.tasks) && s.crm.run.tasks[j].status == Pending && s.crm.run.tasks[j].attempts == 0 < s.crm.run.tasks[j].maxAttempts
  {
  }

  /** The first worker fails at the first attempt and stops before its report is delivered. */
  lemma FailsFirst(s: Sys, i: AgentId, j: nat, x: Exec) returns (steps: seq<Step>, s': Sys, k: Key)
    requires SearchesFirst(s, i, x, j) && s.crm.run.tasks[j].maxAttempts >= 2
    ensures Runs(s, steps, s') && Owes(s', i, k, s.crm.run.tasks[j].id) && Lapsed(s', j, 1) && Since(s, s', i)
    ensures s'.crm.run.tasks == s.crm.run.tasks
  {
    hide Runs, Rests, FailTask, SaveEvent, Executes, Queued, Drained;
    var t;
    steps, t := Fails(s, i, x);
    s' := Lapses(t, i);
    var last := [Work(i, Leave), World(Tick(t.crm.run.lease.value.expires))];
    k := EventKey(s.rid, s.nextEvent);
    RunsJoin(s, steps, t, last, s');
    steps := steps + last;
    FailedOwes(s, s', i, x);
  }

  lemma FailedOwes(s: Sys, s': Sys, i: AgentId, x: Exec)
    requires Searches(s, i, x) && s.crm.run.candidates == map[]
    requires s' == With(s, i, SaveEvent(FailTask(s.agents[i].store, x.task, i), s.rid, FailureEvent(s.nextEvent, x.task)), Idle).(
                     nextEvent := s.nextEvent + 1, now := s'.now)
    ensures Owes(s', i, EventKey(s.rid, s.nextEvent), x.task)
  {
    FailedStore(s.agents[i].store, s.rid, i, x.task, FailureEvent(s.nextEvent, x.task));
    hide SaveEvent, FailTask, Queued, Drained, Rests;
  }

  // ---------- the late report arrives ----------

  /** The CRM counts the task as pending, with no attempt left. */
  ghost predicate LeftStranded(s: Sys, j: nat) {
    && j < |s.crm.run.tasks| && DistinctIds(s.crm.run.tasks) && EventsPass(s) && s.crm.run.candidates == map[] && Claimable(s.crm.run, s.now)
    && StrandedAt(s.crm.run, j)
  }

  /** Only worker i moved, and of the keys the CRM learned only k. */
  ghost predicate Told(s: Sys, s': Sys, i: AgentId, k: Key) {
    && OthersSame(s, s', i) && i in s'.agents && s'.rid == s.rid && s'.refuses == s.refuses && s'.nextEvent == s.nextEvent
    && s'.crm.run.maxCandidates == s.crm.run.maxCandidates && s'.crm.run.candidates == s.crm.run.candidates
    && forall m :: m in s'.crm.idem ==> m in s.crm.idem || m == k
  }

  /** The first worker comes back and delivers its old report. */
  lemma DeliversLate(s: Sys, i: AgentId, j: nat, k: Key, t: TaskId) returns (s': Sys)
    requires Owes(s, i, k, t) && EventsPass(s) && Claimable(s.crm.run, s.now)
    requires LastOf(s.crm.run.tasks, j) && s.crm.run.tasks[j].id == t && s.crm.run.tasks[j].status.Open()
    ensures Runs(s, Opening(i, 1) + [Deliver(i, k, Answered)], s') && Told(s, s', i, k)
    ensures s'.crm.run.status == RunRunning && s'.crm.run.lease.Some?
    ensures s'.crm.run.tasks == ApplyEvents(s.crm.run.tasks, [FailureEvent(k.event, t)])
  {
    hide Runs, Rests, EnsureRun, QueuedCompletion, Opened, ApplyEvents, SameOutbox, Opening, LoadedAs;
    var e := FailureEvent(k.event, t);
    NotCompleted(s.agents[i].store, k, e, t);
    var s1 := OpensWith(s, i, j, 1);
    assert Queued(s.agents[i].store, k);
    OpenedDelivers(s, s1, i, k);
    s' := Sends(s1, i, k, e);
    RunsJoin(s, Opening(i, 1), s1, [Deliver(i, k, Answered)], s');
  }

  /** ... and stops again. */
  lemma ReportsLate(s: Sys, i: AgentId, j: nat, k: Key) returns (steps: seq<Step>, s': Sys)
    requires j < |s.crm.run.tasks| && Owes(s, i, k, s.crm.run.tasks[j].id) && Lapsed(s, j, s.crm.run.tasks[j].maxAttempts)
    ensures Runs(s, steps, s') && LeftStranded(s', j) && Told(s, s', i, k) && s'.crm.run.tasks[j].id == s.crm.run.tasks[j].id
  {
    var id := s.crm.run.tasks[j].id;
    assert k.EventKey?;
    DistinctLast(s.crm.run.tasks, j);
    hide Runs, Owes, ApplyEvents, Opening, LeftStranded, DistinctIds, LastOf, OthersSame, Told, EventsPass;
    var t := DeliversLate(s, i, j, k, id);
    s' := Lapses(t, i);
    steps := [Work(i, Leave), World(Tick(t.crm.run.lease.value.expires))];
    RunsJoin(s, Opening(i, 1) + [Deliver(i, k, Answered)], t, steps, s');
    steps := Opening(i, 1) + [Deliver(i, k, Answered)] + steps;
    hide Claimable;
    LapsesTold(s, t, s', i, k);
    ToldStranded(s, s', i, j, k);
  }

  lemma LapsesTold(s: Sys, t: Sys, s': Sys, i: AgentId, k: Key)
    requires Told(s, t, i, k) && s' == With(t, i, t.agents[i].store, Idle).(now := s'.now)
    ensures Told(s, s', i, k)
  {
  }

  lemma ToldStranded(s: Sys, s': Sys, i: AgentId, j: nat, k: Key)
    requires j < |s.crm.run.tasks| && k.EventKey? && Lapsed(s, j, s.crm.run.tasks[j].maxAttempts) && Told(s, s', i, k) && Claimable(s'.crm.run, s'.now)
    requires s'.crm.run.tasks == ApplyEvents(s.crm.run.tasks, [FailureEvent(k.event, s.crm.run.tasks[j].id)])
    ensures LeftStranded(s', j) && s'.crm.run.tasks[j].id == s.crm.run.tasks[j].id
  {
    LateStrands(s.crm.run.tasks, FailureEvent(k.event, s.crm.run.tasks[j].id), j);
    hide ApplyEvents, Claimable, OthersSame;
  }

  lemma LateStrands(tasks: seq<ClaimedTask>, e: RunEvent, j: nat)
    requires DistinctIds(tasks) && j < |tasks| && e.task == Some(tasks[j].id) && e.status == Some(Pending)
    requires tasks[j].attempts == tasks[j].maxAttempts
    ensures var after := ApplyEvents(tasks, [e]);
      && |after| == |tasks| && DistinctIds(after) && after[j].id == tasks[j].id
      && after[j].status == Pending && after[j].attempts >= after[j].maxAttempts
  {
    ApplyEventExact(tasks, e);
  }

  // ---------- and nothing takes the task ----------

  /** The worker does all other work; then claim_task finds nothing, and the stranded task is still pending. */
  lemma {:induction false} WorksOff(s: Sys, i: AgentId, t: TaskId) returns (steps: seq<Step>, s': Sys)
    requires AtRest(s, i) && t in StrandedIn(s.agents[i].store)
    ensures Runs(s, steps, s') && AtRest(s', i) && t in StrandedIn(s'.agents[i].store)
    ensures ClaimTask(s'.agents[i].store, i, s'.now, 1).1 == None
    decreases LeftIn(s.agents[i].store)
  {
    if ClaimTask(s.agents[i].store, i, s.now, 1).1 == None {
      steps, s' := [], s;
    } else {
      StaysStranded(s.agents[i].store, i, s.now, t);
      hide Runs, ClaimTask, AtRest, Spared, LeftIn, Onward, OnlyEventsAdded;
      var first, u, rest;
      assert i in s.agents by { RestsIn(s, i); }
      first, u := DoesOne(s, i, 1);
      RestsIn(u, i);
      rest, s' := WorksOff(u, i, t);
      RunsJoin(s, first, u, rest, s');
      steps := first + rest;
      RestsIn(s', i);
    }
  }

  lemma RestsIn(s: Sys, i: AgentId)
    requires AtRest(s, i)
    ensures i in s.agents
  {
  }

  lemma StaysStranded(run: MemoryRun, i: AgentId, now: nat, t: TaskId)
    requires t in StrandedIn(run) && ClaimTask(run, i, now, 1).1.Some?
    ensures var (after, task) := ClaimTask(run, i, now, 1);
      t != task.value.id && t in StrandedIn(after) && t in StrandedIn(FinishTask(after, task.value.id, i, 0, 0))
  {
    ClaimTaskTakes(run, i, now, 1);
    hide ClaimTask;
  }

  // ---------- stuck if and only if there is a second worker ----------

  /** At the top of the loop claim_task finds nothing, but work remains. */
  ghost predicate WorkStuck(s: Sys, i: AgentId, seconds: nat) {
    && i in s.agents && In(s.agents[i].pc, AtTop)
    && var (after, task) := ClaimTask(s.agents[i].store, i, s.now, seconds); task == None && Summary(after).pending > 0
  }

  lemma StrandedSticks(s: Sys, i: AgentId, t: TaskId)
    requires AtRest(s, i) && t in StrandedIn(s.agents[i].store) && ClaimTask(s.agents[i].store, i, s.now, 1).1 == None
    ensures WorkStuck(s, i, 1)
  {
    ClaimExecutes(s.agents[i].store, i, s.now, 1);
    hide ClaimTask, Summary, Rests, LeftIn;
    OnlyStrandedOpen(ClaimTask(s.agents[i].store, i, s.now, 1).0);
  }

  /** What another worker does leaves this one able to start a session. */
  lemma StillStopped(s: Sys, s': Sys, i: AgentId, other: AgentId)
    requires Stopped(s, i, {}) && i != other && OthersSame(s, s', other) && s'.rid == s.rid && s'.refuses == s.refuses
    requires s.nextEvent <= s'.nextEvent && s'.crm.run.candidates == s.crm.run.candidates
    requires forall e: EventId :: e >= s'.nextEvent && EventKey(s.rid, e) in s'.crm.idem ==> EventKey(s.rid, e) in s.crm.idem
    ensures Stopped(s', i, {})
  {
  }

  lemma StillOwes(s: Sys, s': Sys, i: AgentId, other: AgentId, k: Key, t: TaskId)
    requires Owes(s, i, k, t) && i != other && Since(s, s', other) && s'.crm.run.candidates == s.crm.run.candidates
    requires forall e: EventId :: e >= s'.nextEvent ==> EventKey(s.rid, e) !in s'.crm.idem
    ensures Owes(s', i, k, t)
  {
  }

  lemma StoppedFresh(s: Sys, i: AgentId)
    requires Stopped(s, i, {})
    ensures forall e: EventId :: e >= s.nextEvent ==> EventKey(s.rid, e) !in s.crm.idem
  {
  }

  lemma StrandedLoads(s: Sys, i: AgentId, j: nat) returns (steps: seq<Step>, s': Sys)
    requires Stopped(s, i, {}) && LeftStranded(s, j)
    ensures Runs(s, steps, s') && WorkStuck(s', i, 1)
  {
    assert Drained(s.agents[i].store);
    DistinctLast(s.crm.run.tasks, j);
    hide Runs, AtRest, Rests, ClaimTask, WorkStuck, Drained;
    var t := Loads(s, i, j);
    assert s.crm.run.tasks[j].id in StrandedIn(t.agents[i].store);
    var more;
    more, s' := WorksOff(t, i, s.crm.run.tasks[j].id);
    RunsJoin(s, Opening(i, 1) + [Work(i, DrainEnds)], t, more, s');
    steps := Opening(i, 1) + [Work(i, DrainEnds)] + more;
    StrandedSticks(s', i, s.crm.run.tasks[j].id);
  }

  /** Two workers with a store each, and a task with two attempts: worker i fails once and stops with the report still
      queued, worker `next` uses up the other attempts, worker i delivers its report, and from then on worker `next`
      finds no task while work remains. */
  lemma LateReportSticks(s: Sys, i: AgentId, next: AgentId, j: nat) returns (steps: seq<Step>, s': Sys)
    requires Init(s) && EventsPass(s) && i in s.agents && next in s.agents && i != next && s.crm.run.maxCandidates > 0
    requires j < |s.crm.run.tasks| && s.crm.run.tasks[j].maxAttempts >= 2
    ensures Runs(s, steps, s') && WorkStuck(s', next, 1)
  {
    var x, s1, s2, k, more;
    BeginsWilling(s, next);
    assert Stopped(s, next, {});
    hide Runs, Init, Begins, WorkStuck, SearchesFirst, Searches, Willing;
    steps, s1, x := FirstSearch(s, i, j);
    SearchedTask(s1, i, x, j);
    more, s2, k := FailsFirst(s1, i, j, x);
    RunsJoin(s, steps, s1, more, s2);
    steps := steps + more;
    SinceJoins(s, s1, s2, i);
    SearchedCandidates(s1, i, x, j);
    more, s' := OthersFinish(s, s2, i, next, j, k);
    RunsJoin(s, steps, s2, more, s');
    steps := steps + more;
  }

  lemma SearchedTask(s: Sys, i: AgentId, x: Exec, j: nat)
    requires SearchesFirst(s, i, x, j)
    ensures j < |s.crm.run.tasks|
  {
  }

  lemma SearchedCandidates(s: Sys, i: AgentId, x: Exec, j: nat)
    requires SearchesFirst(s, i, x, j)
    ensures s.crm.run.candidates == map[]
  {
  }

  lemma OthersFinish(s: Sys, s2: Sys, i: AgentId, next: AgentId, j: nat, k: Key) returns (steps: seq<Step>, s': Sys)
    requires Stopped(s, next, {}) && s.crm.run.candidates == map[] && i != next && Since(s, s2, i)
    requires j < |s2.crm.run.tasks| && Owes(s2, i, k, s2.crm.run.tasks[j].id) && Lapsed(s2, j, 1) && s2.crm.run.tasks[j].maxAttempts >= 2
    ensures Runs(s2, steps, s') && WorkStuck(s', next, 1)
  {
    hide Runs, WorkStuck;
    OwesFresh(s2, i, k, s2.crm.run.tasks[j].id);
    StillStopped(s, s2, next, i);
    hide Willing, OthersSame;
    var s3, s4, more;
    steps, s3 := UsesAll(s2, next, j);
    StoppedFresh(s3, next);
    StillOwes(s2, s3, i, next, k, s2.crm.run.tasks[j].id);
    more, s4 := ReportsLate(s3, i, j, k);
    RunsJoin(s2, steps, s3, more, s4);
    steps := steps + more;
    ToldStopped(s3, s4, i, next, k);
    more, s' := StrandedLoads(s4, next, j);
    RunsJoin(s2, steps, s4, more, s');
    steps := steps + more;
  }

  lemma OwesFresh(s: Sys, i: AgentId, k: Key, t: TaskId)
    requires Owes(s, i, k, t)
    ensures forall e: EventId :: e >= s.nextEvent ==> EventKey(s.rid, e) !in s.crm.idem
  {
  }

  lemma ToldStopped(s: Sys, s': Sys, i: AgentId, next: AgentId, k: Key)
    requires Stopped(s, next, {}) && Told(s, s', i, k) && i != next && k.EventKey? && k.event < s.nextEvent
    ensures Stopped(s', next, {})
  {
    StillStopped(s, s', next, i);
  }

  lemma {:induction false} RunsSameAgents(s: Sys, steps: seq<Step>, s': Sys)
    requires Runs(s, steps, s')
    ensures s'.agents.Keys == s.agents.Keys
    decreases |steps|
  {
    if |steps| > 0 {
      hide Enabled, Apply;
      Single.StepSameAgents(s, steps[0]);
      RunsSameAgents(Apply(s, steps[0]), steps[1..], s');
    }
  }

  /** Some run leads to a worker that finds no task while work remains. */
  ghost predicate CanStick(s: Sys) {
    exists steps, s', i, seconds :: Runs(s, steps, s') && WorkStuck(s', i, seconds)
  }

  lemma OneWorkerNeverSticks(s: Sys, steps: seq<Step>, s': Sys, i: AgentId, seconds: nat)
    requires Init(s) && Runs(s, steps, s') && |s.agents| < 2
    ensures !WorkStuck(s', i, seconds)
  {
    RunsSameAgents(s, steps, s');
    hide Init, Runs;
    if WorkStuck(s', i, seconds) {
      assert Reachable(s');
      assert s'.agents.Keys == {i} by { OnlyMember(s'.agents.Keys, i); }
      Work.NoTaskMeansNoWork(s', i, seconds);
    }
  }

  lemma OnlyMember(ids: set<AgentId>, i: AgentId)
    requires i in ids && |ids| < 2
    ensures ids == {i}
  {
    if other :| other in ids && other != i { assert |{i, other}| == 2 && {i, other} <= ids; Subset({i, other}, ids); }
  }

  lemma Subset(a: set<AgentId>, b: set<AgentId>)
    requires a <= b
    ensures |a| <= |b|
  {
    assert b == a + (b - a);
  }

  /** A run can get stuck if and only if a second worker with its own store takes part, whenever the CRM takes events, the
      cap is positive and some task may be tried again. */
  lemma WorkSticksIffTwoWorkers(s: Sys, j: nat)
    requires Init(s) && EventsPass(s) && s.crm.run.maxCandidates > 0
    requires j < |s.crm.run.tasks| && s.crm.run.tasks[j].maxAttempts >= 2
    ensures CanStick(s) <==> |s.agents| >= 2
  {
    hide Init, Runs, WorkStuck;
    if |s.agents| >= 2 {
      var i :| i in s.agents;
      assert |s.agents.Keys - {i}| >= 1;
      var next :| next in s.agents.Keys - {i};
      var steps, s' := LateReportSticks(s, i, next, j);
    } else {
      forall steps, s', i, seconds | Runs(s, steps, s') ensures !WorkStuck(s', i, seconds) { OneWorkerNeverSticks(s, steps, s', i, seconds); }
    }
  }

  // ---------- nothing but a late failure ----------

  /** Some step of the run is a late failure. */
  ghost predicate MeetsLateFailure(s: Sys, steps: seq<Step>)
    decreases |steps|
  {
    && |steps| > 0 && Enabled(s, steps[0])
    && ((exists j :: 0 <= j < |s.crm.run.tasks| && LateFailure(s, steps[0], j)) || MeetsLateFailure(Apply(s, steps[0]), steps[1..]))
  }

  ghost predicate NoneStranded(s: Sys) { forall j :: 0 <= j < |s.crm.run.tasks| ==> !StrandedAt(s.crm.run, j) }

  lemma {:induction false} RunStrandsNothing(s: Sys, steps: seq<Step>, s': Sys)
    requires Keys.Inv(s) && Leases.Inv(s) && NoneStranded(s) && Runs(s, steps, s') && !MeetsLateFailure(s, steps)
    ensures NoneStranded(s')
    decreases |steps|
  {
    hide Keys.Inv, Leases.Inv, Enabled, Apply, LateFailure, StrandedAt;
    if |steps| > 0 {
      var t := Apply(s, steps[0]);
      SameTasks(s, steps[0]);
      forall j | 0 <= j < |t.crm.run.tasks| ensures !StrandedAt(t.crm.run, j) { StepStrands(s, steps[0], j); }
      Keys.StepKeeps(s, steps[0]);
      Leases.StepKeeps(s, steps[0]);
      RunStrandsNothing(t, steps[1..], s');
    }
  }

  /** Any number of workers: in every run without a late failure each pending task of the CRM has attempts left. */
  lemma OnlyLateFailuresStrand(s: Sys, steps: seq<Step>, s': Sys)
    requires Init(s) && Runs(s, steps, s') && !MeetsLateFailure(s, steps)
    ensures NoneStranded(s')
  {
    Keys.InitInv(s);
    Leases.InitInv(s);
    hide Keys.Inv, Leases.Inv, Runs, MeetsLateFailure;
    RunStrandsNothing(s, steps, s');
  }

  lemma SameTasks(s: Sys, step: Step)
    requires Enabled(s, step)
    ensures |Apply(s, step).crm.run.tasks| == |s.crm.run.tasks|
  {
    hide LeaseEnabled, QueueEnabled, CanReplay, CanDeliver, AfterLease, AfterQueue, Replayed, Delivered, Worked;
    match step
    case World(_) =>
    case Lease(i, l) => LeaseSpares(s, i, l);
    case Work(_, _) =>
    case Queue(i, q) => Ends.QueueChanges(s, i, q);
    case Replay(i, k, channel) => ReplaySpares(s, i, k, channel);
    case Deliver(i, k, channel) => DeliveryTasks(s, i, k, channel);
  }
}
