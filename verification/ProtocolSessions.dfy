/** What one worker can do when nothing goes wrong: pieces of runs, from which whole runs are built. */
module ProtocolSessions {
  import opened Contracts
  import opened CrmSpec
  import opened CrmLaws
  import opened StoreSpec
  import opened StoreLaws
  import opened Delivery
  import opened DeliveryLaws
  import opened Protocol
  import opened ProtocolSteps
  import opened TaskLoop

  // ---------- joining runs ----------

  lemma RunsOne(s: Sys, step: Step)
    requires Enabled(s, step)
    ensures Runs(s, [step], Apply(s, step))
  {
    hide Enabled, Apply;
    assert [step][1..] == [];
  }

  lemma {:induction false} RunsJoin(s: Sys, a: seq<Step>, t: Sys, b: seq<Step>, u: Sys)
    requires Runs(s, a, t) && Runs(t, b, u)
    ensures Runs(s, a + b, u)
    decreases |a|
  {
    hide Enabled, Apply;
    if |a| == 0 {
      assert a + b == b;
    } else {
      RunsJoin(Apply(s, a[0]), a[1..], t, b, u);
      assert (a + b)[1..] == a[1..] + b;
    }
  }

  lemma RunsNext(s: Sys, a: seq<Step>, t: Sys, step: Step)
    requires Runs(s, a, t) && Enabled(t, step)
    ensures Runs(s, a + [step], Apply(t, step))
  {
    hide Enabled, Apply, Runs;
    RunsOne(t, step);
    RunsJoin(s, a, t, [step], Apply(t, step));
  }

  predicate ActsOnly(step: Step, i: AgentId) { !step.World? && step.i == i }

  /** Every step is one of worker i. */
  ghost predicate Solo(steps: seq<Step>, i: AgentId) {
    forall n :: 0 <= n < |steps| ==> ActsOnly(steps[n], i)
  }

  // ---------- a session in good order ----------

  /** The event ids to come are known neither to the CRM nor to the worker. */
  ghost predicate Fresh(s: Sys, i: AgentId) {
    && i in s.agents && Tidy(s.agents[i].store)
    && forall e: EventId :: e >= s.nextEvent ==> EventKey(s.rid, e) !in s.crm.idem && EventKey(s.rid, e) !in s.agents[i].store.outbox
  }

  ghost predicate EventsPass(s: Sys) {
    forall events :: !s.refuses(Events(events))
  }

  /** The session holds the lease, nothing is queued or dead, and the cap is not reached. */
  ghost predicate InOrder(s: Sys, i: AgentId) {
    && Fresh(s, i) && EventsPass(s) && s.agents[i].pc.Session? && ValidLease(s.crm.run, s.agents[i].pc.token, s.now)
    && Drained(s.agents[i].store) && s.agents[i].store.dead == {} && s.agents[i].store.baseline < s.agents[i].store.cap
  }

  ghost predicate AtRest(s: Sys, i: AgentId) {
    InOrder(s, i) && In(s.agents[i].pc, AtTop) && Rests(s.agents[i].store, s.now)
  }

  ghost predicate Searches(s: Sys, i: AgentId, x: Exec) {
    && InOrder(s, i) && s.agents[i].pc == Session(s.agents[i].pc.token, Doing(x, Searching))
    && Executes(s.agents[i].store, TaskOf(s.agents[i].store, x), i, s.now)
  }

  function TaskOf(store: MemoryRun, x: Exec): WorkerTask {
    WorkerTask(x.task, if x.task in store.tasks then store.tasks[x.task].source else GooglePlaces, x.attempt, x.maxAttempts)
  }

  /** Only worker i moved; the CRM learned at most events. */
  ghost predicate Onward(s: Sys, s': Sys, i: AgentId) {
    && s'.rid == s.rid && s'.refuses == s.refuses && s'.now == s.now && s'.nextToken == s.nextToken && s.nextEvent <= s'.nextEvent
    && s'.writes == s.writes && OthersSame(s, s', i)
    && s'.crm.run.candidates == s.crm.run.candidates && s'.crm.run.maxCandidates == s.crm.run.maxCandidates
    && s'.crm.run.status == s.crm.run.status && s'.crm.results == s.crm.results
    && (forall k :: k in s.crm.idem ==> k in s'.crm.idem)
    && forall k :: k in s'.crm.idem && k !in s.crm.idem ==> k.EventKey? && s.nextEvent <= k.event < s'.nextEvent
  }

  lemma OnwardJoins(s: Sys, t: Sys, u: Sys, i: AgentId)
    requires Onward(s, t, i) && Onward(t, u, i)
    ensures Onward(s, u, i)
  {
  }

  // ---------- single steps ----------

  /** A queued event that the CRM does not know is accepted and marked delivered. */
  lemma Sends(s: Sys, i: AgentId, k: Key, e: RunEvent) returns (s': Sys)
    requires CanDeliver(s, i, k) && ValidLease(s.crm.run, s.agents[i].pc.token, s.now)
    requires s.agents[i].store.outbox[k] == Events([e]) && !s.refuses(Events([e])) && k !in s.crm.idem
    ensures Runs(s, [Deliver(i, k, Answered)], s')
    ensures s'.agents == s.agents[i := Agent(MarkDelivered(s.agents[i].store, k), s.agents[i].pc)]
    ensures s'.crm == s.crm.(idem := s.crm.idem[k := Events([e])],
                             run := s.crm.run.(events := s.crm.run.events + [e], tasks := ApplyEvents(s.crm.run.tasks, [e])))
    ensures s' == s.(agents := s'.agents, crm := s'.crm, log := s'.log, reserved := s'.reserved)
  {
    s' := Delivered(s, i, k, Answered);
    RunsOne(s, Deliver(i, k, Answered));
  }

  lemma Drains(s: Sys, i: AgentId) returns (s': Sys)
    requires i in s.agents && DrainingTo(s.agents[i].pc) && Drained(s.agents[i].store)
    ensures Runs(s, [Work(i, DrainEnds)], s') && s' == With(s, i, s.agents[i].store, Resumed(s.agents[i].pc))
  {
    s' := AfterWork(s, i, DrainEnds);
    RunsOne(s, Work(i, DrainEnds));
  }

  lemma Takes(s: Sys, i: AgentId, seconds: nat) returns (s': Sys)
    requires CanTake(s, i, seconds) && ValidLease(s.crm.run, s.agents[i].pc.token, s.now)
    ensures Runs(s, [Step.Lease(i, TakeTask(seconds)), Step.Lease(i, Renew(seconds))], s')
    ensures var (store, task) := ClaimTask(s.agents[i].store, i, s.now, seconds);
      s' == With(s, i, store, Session(s.agents[i].pc.token, Ready(task.value))).(
              crm := s.crm.(run := s.crm.run.(lease := Some(CrmSpec.Lease(s.agents[i].pc.token, s.now + seconds)))))
  {
    hide ClaimTask;
    var t := Took(s, i, seconds);
    assert Apply(s, Step.Lease(i, TakeTask(seconds))) == t;
    RunsOne(s, Step.Lease(i, TakeTask(seconds)));
    s' := Beaten(t, i, seconds, Session(t.agents[i].pc.token, Ready(t.agents[i].pc.phase.task)));
    assert LeaseEnabled(t, i, Renew(seconds)) && AfterLease(t, i, Renew(seconds)) == s';
    RunsNext(s, [Step.Lease(i, TakeTask(seconds))], t, Step.Lease(i, Renew(seconds)));
    assert [Step.Lease(i, TakeTask(seconds))] + [Step.Lease(i, Renew(seconds))] == [Step.Lease(i, TakeTask(seconds)), Step.Lease(i, Renew(seconds))];
  }

  // ---------- saying something new ----------

  lemma SentStore(store: MemoryRun, r: RunId, e: RunEvent)
    requires Tidy(store) && Drained(store) && EventKey(r, e.id) !in store.outbox
    ensures var k, b := EventKey(r, e.id), SaveEvent(store, r, e); var c := MarkDelivered(b, k);
      && Queued(b, k) && b.outbox[k] == Events([e]) && Drained(c) && Tidy(c)
      && c == store.(outbox := store.outbox[k := Events([e])], queue := c.queue, delivered := c.delivered)
  {
    forall m ensures !Queued(MarkDelivered(SaveEvent(store, r, e), EventKey(r, e.id)), m) { assert !Queued(store, m); }
  }

  /** The step saves the event e and goes on to deliver it. */
  ghost predicate SavesEvent(s: Sys, i: AgentId, q: QueueStep, e: RunEvent, next: Resume) {
    && i in s.agents && s.agents[i].pc.Session? && QueueEnabled(s, i, q) && e.id == s.nextEvent
    && var t := AfterQueue(s, i, q);
       t == With(s, i, SaveEvent(s.agents[i].store, s.rid, e), Session(s.agents[i].pc.token, Draining(next))).(
              nextEvent := s.nextEvent + 1, starter := t.starter, done := t.done)
  }

  function Saying(i: AgentId, q: QueueStep, r: RunId, e: EventId): seq<Step> {
    [Queue(i, q), Deliver(i, EventKey(r, e), Answered), Work(i, DrainEnds)]
  }

  /** Saved, delivered, accepted: the worker goes on, and the CRM has applied the event. */
  ghost predicate Said(s: Sys, s': Sys, i: AgentId, e: RunEvent, next: Resume) {
    && Onward(s, s', i) && i in s.agents && s.agents[i].pc.Session? && InOrder(s', i)
    && s'.agents[i].pc == Resumed(Session(s.agents[i].pc.token, Draining(next)))
    && s'.agents[i].store == s.agents[i].store.(outbox := s'.agents[i].store.outbox, queue := s'.agents[i].store.queue,
                                                delivered := s'.agents[i].store.delivered)
    && s'.agents[i].store.outbox == s.agents[i].store.outbox[EventKey(s.rid, e.id) := Events([e])]
    && s'.crm.run.tasks == ApplyEvents(s.crm.run.tasks, [e]) && s'.crm.run.lease == s.crm.run.lease
    && s'.nextEvent == s.nextEvent + 1
  }

  lemma Says(s: Sys, i: AgentId, q: QueueStep, e: RunEvent, next: Resume) returns (s': Sys)
    requires InOrder(s, i) && SavesEvent(s, i, q, e, next) && next != ToExit
    ensures Runs(s, Saying(i, q, s.rid, e.id), s') && Said(s, s', i, e, next)
  {
    hide QueueEnabled, AfterQueue, Drained, Tidy, ApplyEvents, Runs, Apply, Enabled;
    var k, t := EventKey(s.rid, e.id), AfterQueue(s, i, q);
    SentStore(s.agents[i].store, s.rid, e);
    QueueRuns(s, i, q);
    var u := Sends(t, i, k, e);
    s' := Drains(u, i);
    RunsJoin(s, [Queue(i, q)], t, [Deliver(i, k, Answered)], u);
    RunsJoin(s, [Queue(i, q)] + [Deliver(i, k, Answered)], u, [Work(i, DrainEnds)], s');
    assert [Queue(i, q)] + [Deliver(i, k, Answered)] + [Work(i, DrainEnds)] == Saying(i, q, s.rid, e.id);
  }

  lemma QueueRuns(s: Sys, i: AgentId, q: QueueStep)
    requires QueueEnabled(s, i, q)
    ensures Runs(s, [Queue(i, q)], AfterQueue(s, i, q))
  {
    hide QueueEnabled, AfterQueue, Runs;
    assert Enabled(s, Queue(i, q)) && Apply(s, Queue(i, q)) == AfterQueue(s, i, q);
    hide Enabled, Apply;
    RunsOne(s, Queue(i, q));
  }

  // ---------- from the top of the loop into a search, and back ----------

  function Starting(i: AgentId, seconds: nat, r: RunId, e: EventId): seq<Step> {
    [Step.Lease(i, TakeTask(seconds)), Step.Lease(i, Renew(seconds))] + Saying(i, StartTask, r, e)
  }

  /** The worker holds the task it has just taken. */
  ghost predicate TookOne(s: Sys, s': Sys, i: AgentId, task: WorkerTask) {
    && Onward(s, s', i) && InOrder(s', i) && i in s.agents && s.agents[i].pc.Session? && s'.nextEvent == s.nextEvent
    && s'.agents[i].pc == Session(s.agents[i].pc.token, Ready(task)) && s'.crm.run.tasks == s.crm.run.tasks
    && Executes(s'.agents[i].store, task, i, s.now) && SameOutbox(s.agents[i].store, s'.agents[i].store)
    && LeftIn(s'.agents[i].store) < LeftIn(s.agents[i].store) && s'.agents[i].store.baseline == s.agents[i].store.baseline
  }

  lemma ClaimKeepsOrder(s: Sys, i: AgentId, seconds: nat)
    requires AtRest(s, i) && ClaimTask(s.agents[i].store, i, s.now, seconds).1.Some?
    ensures var (store, task) := ClaimTask(s.agents[i].store, i, s.now, seconds);
      && Drained(store) && Tidy(store) && store == s.agents[i].store.(tasks := store.tasks)
      && Executes(store, task.value, i, s.now) && LeftIn(store) < LeftIn(s.agents[i].store)
  {
    ClaimTaskTakes(s.agents[i].store, i, s.now, seconds);
    ClaimExecutes(s.agents[i].store, i, s.now, seconds);
    hide ClaimTask, Executes, Rests, LeftIn;
    forall k ensures !Queued(ClaimTask(s.agents[i].store, i, s.now, seconds).0, k) { assert !Queued(s.agents[i].store, k); }
  }

  lemma TakesOne(s: Sys, i: AgentId, seconds: nat) returns (s': Sys)
    requires AtRest(s, i) && seconds > 0 && ClaimTask(s.agents[i].store, i, s.now, seconds).1.Some?
    ensures Runs(s, [Step.Lease(i, TakeTask(seconds)), Step.Lease(i, Renew(seconds))], s')
    ensures TookOne(s, s', i, ClaimTask(s.agents[i].store, i, s.now, seconds).1.value)
    ensures s'.agents[i].store == ClaimTask(s.agents[i].store, i, s.now, seconds).0
    ensures s'.crm.run.lease == Some(CrmSpec.Lease(s.agents[i].pc.token, s.now + seconds))
  {
    hide ClaimTask, Executes, Rests, Runs, LeftIn, Drained, Tidy;
    ClaimKeepsOrder(s, i, seconds);
    s' := Takes(s, i, seconds);
  }

  /** The task is taken and announced, and its search begins. */
  lemma Starts(s: Sys, i: AgentId, seconds: nat) returns (s': Sys)
    requires AtRest(s, i) && seconds > 0 && ClaimTask(s.agents[i].store, i, s.now, seconds).1.Some?
    ensures Runs(s, Starting(i, seconds, s.rid, s.nextEvent), s') && Onward(s, s', i)
    ensures var (store, task) := ClaimTask(s.agents[i].store, i, s.now, seconds);
      var x := Exec(s.nextEvent, task.value.id, task.value.attempt, task.value.maxAttempts);
      && Searches(s', i, x) && Tells(s, s', i, store, StartedEvent(s.nextEvent, task.value))
  {
    hide ClaimTask, Executes, Rests, Runs, LeftIn, Drained, Tidy;
    var task := ClaimTask(s.agents[i].store, i, s.now, seconds).1.value;
    var t := TakesOne(s, i, seconds);
    var e, x := StartedEvent(t.nextEvent, task), Exec(t.nextEvent, task.id, task.attempt, task.maxAttempts);
    StartSaves(t, i, e, x);
    s' := Says(t, i, StartTask, e, ToSearch(x));
    RunsJoin(s, [Step.Lease(i, TakeTask(seconds)), Step.Lease(i, Renew(seconds))], t, Saying(i, StartTask, s.rid, t.nextEvent), s');
    OnwardJoins(s, t, s', i);
    StillExecutes(t.agents[i].store, s'.agents[i].store, task, x, i, s.now);
  }

  /** The records are those of `store`, and e is the only new event. */
  ghost predicate Tells(s: Sys, s': Sys, i: AgentId, store: MemoryRun, e: RunEvent) {
    && i in s.agents && i in s'.agents && s.agents[i].pc.Session? && s'.agents[i].pc.Session?
    && s'.agents[i].pc.token == s.agents[i].pc.token
    && s'.agents[i].store.tasks == store.tasks && s'.agents[i].store.order == store.order
    && s'.agents[i].store.outbox == s.agents[i].store.outbox[EventKey(s.rid, e.id) := Events([e])]
    && s'.agents[i].store.baseline == s.agents[i].store.baseline && s'.agents[i].store.cap == s.agents[i].store.cap
    && s'.crm.run.tasks == ApplyEvents(s.crm.run.tasks, [e]) && s'.nextEvent == s.nextEvent + 1
  }

  lemma StartSaves(s: Sys, i: AgentId, e: RunEvent, x: Exec)
    requires i in s.agents && s.agents[i].pc.Session? && s.agents[i].pc.phase.Ready?
    requires e == StartedEvent(s.nextEvent, s.agents[i].pc.phase.task)
    requires x == Exec(s.nextEvent, s.agents[i].pc.phase.task.id, s.agents[i].pc.phase.task.attempt, s.agents[i].pc.phase.task.maxAttempts)
    ensures SavesEvent(s, i, StartTask, e, ToSearch(x))
  {
  }

  lemma StillExecutes(a: MemoryRun, b: MemoryRun, task: WorkerTask, x: Exec, i: AgentId, now: nat)
    requires Executes(a, task, i, now) && b.tasks == a.tasks && b.order == a.order
    requires x.task == task.id && x.attempt == task.attempt && x.maxAttempts == task.maxAttempts
    ensures Executes(b, TaskOf(b, x), i, now) && LeftIn(b) == LeftIn(a)
  {
  }

  function DoneEvent(id: EventId, t: TaskId): RunEvent {
    RunEvent(id, Some(t), Some(Completed), None, Some(0), Some(0), Some(0), false)
  }

  function Finishing(i: AgentId, r: RunId, e: EventId, t: TaskId): seq<Step> {
    [Queue(i, Save([])), Work(i, Finish(0, 0))] + Saying(i, ReportDone(DoneEvent(e, t)), r, e)
  }

  /** The search finds nothing: nothing is saved, and the task is finished. */
  lemma FindsNothing(s: Sys, i: AgentId, x: Exec) returns (s': Sys)
    requires Searches(s, i, x)
    ensures Runs(s, [Queue(i, Save([])), Work(i, Finish(0, 0))], s')
    ensures s' == With(s, i, FinishTask(s.agents[i].store, x.task, i, 0, 0), Session(s.agents[i].pc.token, Doing(x, Finished)))
  {
    var t := SavedCandidates(s, i, []);
    QueueRuns(s, i, Save([]));
    assert t == With(s, i, s.agents[i].store, Session(s.agents[i].pc.token, Doing(x, Saved)));
    s' := AfterWork(t, i, Finish(0, 0));
    hide Runs, SavedCandidates;
    RunsNext(s, [Queue(i, Save([]))], t, Work(i, Finish(0, 0)));
    assert [Queue(i, Save([]))] + [Work(i, Finish(0, 0))] == [Queue(i, Save([])), Work(i, Finish(0, 0))];
  }

  lemma DoneSaves(s: Sys, i: AgentId, x: Exec)
    requires i in s.agents && At(s.agents[i].pc, Finished) && s.agents[i].pc.phase.exec == x
    ensures SavesEvent(s, i, ReportDone(DoneEvent(s.nextEvent, x.task)), DoneEvent(s.nextEvent, x.task), ToTop)
  {
  }

  lemma FinishKeepsOrder(s: Sys, t: Sys, i: AgentId, x: Exec)
    requires Searches(s, i, x)
    requires t == With(s, i, FinishTask(s.agents[i].store, x.task, i, 0, 0), Session(s.agents[i].pc.token, Doing(x, Finished)))
    ensures InOrder(t, i) && Onward(s, t, i) && Rests(t.agents[i].store, s.now) && LeftIn(t.agents[i].store) <= LeftIn(s.agents[i].store)
  {
    FinishRests(s.agents[i].store, TaskOf(s.agents[i].store, x), i, s.now, 0, 0);
    hide Rests, Executes, LeftIn;
    forall k ensures !Queued(t.agents[i].store, k) { assert !Queued(s.agents[i].store, k); }
  }

  /** An execution that finds nothing ends with its completion accepted. */
  lemma Finishes(s: Sys, i: AgentId, x: Exec) returns (s': Sys)
    requires Searches(s, i, x)
    ensures Runs(s, Finishing(i, s.rid, s.nextEvent, x.task), s') && Onward(s, s', i) && AtRest(s', i)
    ensures Tells(s, s', i, FinishTask(s.agents[i].store, x.task, i, 0, 0), DoneEvent(s.nextEvent, x.task))
    ensures LeftIn(s'.agents[i].store) <= LeftIn(s.agents[i].store)
  {
    hide Executes, Rests, Runs, LeftIn, Drained, Tidy;
    var e := DoneEvent(s.nextEvent, x.task);
    var t := FindsNothing(s, i, x);
    FinishKeepsOrder(s, t, i, x);
    DoneSaves(t, i, x);
    s' := Says(t, i, ReportDone(e), e, ToTop);
    RunsJoin(s, [Queue(i, Save([])), Work(i, Finish(0, 0))], t, Saying(i, ReportDone(e), s.rid, e.id), s');
    OnwardJoins(s, t, s', i);
    SameTasksSame(t.agents[i].store, s'.agents[i].store, WorkerTask(0, GooglePlaces, 0, 0), i, s.now);
  }

  // ---------- a new session ----------

  function Opening(i: AgentId, seconds: nat): seq<Step> {
    [Step.Lease(i, ClaimRun(seconds)), Step.Lease(i, Ensure)]
  }

  /** The run is claimed and loaded. */
  ghost predicate Opened(s: Sys, s': Sys, i: AgentId, seconds: nat) {
    && i in s.agents
    && s' == s.(agents := s.agents[i := Agent(EnsureRun(s.agents[i].store, ClaimOf(s.crm.run, s.now, seconds, s.nextToken), Some(i), s.now),
                                              Session(s.nextToken, Draining(ToTop)))],
                crm := s.crm.(run := Granted(s.crm.run, s.now, seconds, s.nextToken)),
                nextToken := s.nextToken + 1, holder := s.holder[s.nextToken := i])
  }

  lemma Opens(s: Sys, i: AgentId, seconds: nat) returns (s': Sys)
    requires i in s.agents && s.agents[i].pc.Idle? && Claimable(s.crm.run, s.now)
    ensures Runs(s, Opening(i, seconds), s') && Opened(s, s', i, seconds)
  {
    hide Runs, EnsureRun;
    var t := Granting(s, i, seconds);
    s' := Ensured(t, i);
    assert Enabled(s, Step.Lease(i, ClaimRun(seconds))) && Apply(s, Step.Lease(i, ClaimRun(seconds))) == t;
    assert Enabled(t, Step.Lease(i, Ensure)) && Apply(t, Step.Lease(i, Ensure)) == s';
    hide Enabled, Apply;
    RunsOne(s, Step.Lease(i, ClaimRun(seconds)));
    RunsNext(s, [Step.Lease(i, ClaimRun(seconds))], t, Step.Lease(i, Ensure));
    assert [Step.Lease(i, ClaimRun(seconds))] + [Step.Lease(i, Ensure)] == Opening(i, seconds);
  }

  /** What a worker needs for a session to reach the top of the loop. */
  ghost predicate Willing(s: Sys, i: AgentId) {
    && Fresh(s, i) && EventsPass(s) && s.agents[i].store.dead == {} && Ordered(s.agents[i].store)
    && s.agents[i].store.baseline < s.agents[i].store.cap && |s.crm.run.candidates| < s.agents[i].store.cap
  }

  // ---------- reaching a given task ----------

  /** claim_task would take the task. */
  predicate Waits(store: MemoryRun, t: TaskId, now: nat) {
    t in store.tasks && Takable(store.tasks[t], now)
  }

  /** The CRM's entries of task t are the same. */
  ghost predicate Spared(a: seq<ClaimedTask>, b: seq<ClaimedTask>, t: TaskId) {
    && |b| == |a| && (forall j :: 0 <= j < |a| ==> b[j].id == a[j].id && b[j].maxAttempts == a[j].maxAttempts)
    && forall j :: 0 <= j < |a| && a[j].id == t ==> b[j] == a[j]
  }

  lemma {:induction false} AppliedElsewhere(tasks: seq<ClaimedTask>, e: RunEvent, j: nat)
    requires j < |tasks| && e.task != Some(tasks[j].id)
    ensures ApplyEvent(tasks, e)[j] == tasks[j]
  {
    if e.task.Some? && tasks[0].id != e.task.value && j > 0 { AppliedElsewhere(tasks[1..], e, j - 1); }
  }

  lemma OneEvent(tasks: seq<ClaimedTask>, e: RunEvent)
    ensures ApplyEvents(tasks, [e]) == ApplyEvent(tasks, e)
  {
    assert [e][..0] == [] && ApplyEvents(tasks, []) == tasks;
  }

  lemma EventSpares(tasks: seq<ClaimedTask>, e: RunEvent, t: TaskId)
    requires e.task != Some(t)
    ensures Spared(tasks, ApplyEvents(tasks, [e]), t)
  {
    OneEvent(tasks, e);
    forall j | 0 <= j < |tasks| && tasks[j].id == t ensures ApplyEvent(tasks, e)[j] == tasks[j] { AppliedElsewhere(tasks, e, j); }
  }

  ghost predicate OnlyEventsAdded(a: MemoryRun, b: MemoryRun) {
    && b.cap == a.cap && b.baseline == a.baseline && (forall k :: k in b.outbox && k !in a.outbox ==> k.EventKey?)
  }

  /** Worker i got from s to the search x: events apart, nothing was added anywhere, and of those about its task the CRM
      accepted only the running event. */
  ghost predicate Got(s: Sys, s': Sys, i: AgentId, x: Exec, others: seq<ClaimedTask>, source: SourceName) {
    && Onward(s, s', i) && Searches(s', i, x) && i in s.agents && OnlyEventsAdded(s.agents[i].store, s'.agents[i].store)
    && Spared(s.crm.run.tasks, others, x.task)
    && s'.crm.run.tasks == ApplyEvents(others, [StartedEvent(x.event, WorkerTask(x.task, source, x.attempt, x.maxAttempts))])
    && x.task in s.agents[i].store.tasks && x.attempt == s.agents[i].store.tasks[x.task].attempts + 1
    && x.maxAttempts == s.agents[i].store.tasks[x.task].maxAttempts
  }

  /** A task other than the one taken is left as it was if it waits. */
  lemma TakesSome(s: Sys, i: AgentId, t: TaskId, seconds: nat)
    requires AtRest(s, i) && Waits(s.agents[i].store, t, s.now)
    ensures var (store, task) := ClaimTask(s.agents[i].store, i, s.now, seconds);
      && task.Some?
      && (if task.value.id == t
          then task.value == WorkerTask(t, s.agents[i].store.tasks[t].source, s.agents[i].store.tasks[t].attempts + 1,
                                        s.agents[i].store.tasks[t].maxAttempts)
          else t in store.tasks && store.tasks[t] == s.agents[i].store.tasks[t])
  {
    ClaimTaskTakes(s.agents[i].store, i, s.now, seconds);
    if ClaimTask(s.agents[i].store, i, s.now, seconds).1.None? { ClaimTaskPasses(s.agents[i].store, i, s.now, seconds, t); }
    hide ClaimTask;
  }

  lemma SameLeft(a: MemoryRun, b: MemoryRun)
    requires b.tasks == a.tasks && b.order == a.order
    ensures LeftIn(b) == LeftIn(a)
  {
  }

  /** One task is taken, searched without a result, and finished. */
  lemma DoesOne(s: Sys, i: AgentId, seconds: nat) returns (steps: seq<Step>, s': Sys)
    requires AtRest(s, i) && seconds > 0 && ClaimTask(s.agents[i].store, i, s.now, seconds).1.Some?
    ensures Runs(s, steps, s') && Onward(s, s', i) && AtRest(s', i) && OnlyEventsAdded(s.agents[i].store, s'.agents[i].store)
    ensures Solo(steps, i)
    ensures LeftIn(s'.agents[i].store) < LeftIn(s.agents[i].store)
    ensures var (store, task) := ClaimTask(s.agents[i].store, i, s.now, seconds);
      && s'.agents[i].store.tasks == FinishTask(store, task.value.id, i, 0, 0).tasks
      && forall t :: t != task.value.id ==> Spared(s.crm.run.tasks, s'.crm.run.tasks, t)
  {
    hide Runs, ClaimTask, Executes, Rests, LeftIn, Drained, Tidy, ApplyEvents, Spared;
    var (store, task) := ClaimTask(s.agents[i].store, i, s.now, seconds);
    ClaimKeepsOrder(s, i, seconds);
    var t := Starts(s, i, seconds);
    var x := Exec(s.nextEvent, task.value.id, task.value.attempt, task.value.maxAttempts);
    s' := Finishes(t, i, x);
    OnwardJoins(s, t, s', i);
    SameLeft(store, t.agents[i].store);
    steps := Starting(i, seconds, s.rid, s.nextEvent) + Finishing(i, s.rid, t.nextEvent, x.task);
    RunsJoin(s, Starting(i, seconds, s.rid, s.nextEvent), t, Finishing(i, s.rid, t.nextEvent, x.task), s');
    forall u | u != task.value.id ensures Spared(s.crm.run.tasks, s'.crm.run.tasks, u) {
      EventSpares(s.crm.run.tasks, StartedEvent(s.nextEvent, task.value), u);
      EventSpares(t.crm.run.tasks, DoneEvent(t.nextEvent, x.task), u);
      SparedJoins(s.crm.run.tasks, t.crm.run.tasks, s'.crm.run.tasks, u);
    }
  }

  lemma SparedJoins(a: seq<ClaimedTask>, b: seq<ClaimedTask>, c: seq<ClaimedTask>, t: TaskId)
    requires Spared(a, b, t) && Spared(b, c, t)
    ensures Spared(a, c, t)
  {
  }

  /** A waiting task is reached in the end: the tasks before it are searched, found empty and finished. */
  lemma {:induction false} Reaches(s: Sys, i: AgentId, t: TaskId, seconds: nat)
    returns (steps: seq<Step>, s': Sys, x: Exec, others: seq<ClaimedTask>, source: SourceName)
    requires AtRest(s, i) && Waits(s.agents[i].store, t, s.now) && seconds > 0
    ensures Runs(s, steps, s') && Got(s, s', i, x, others, source) && x.task == t && Solo(steps, i)
    decreases LeftIn(s.agents[i].store)
  {
    hide Runs, ClaimTask, Executes, Rests, LeftIn, Drained, Tidy, ApplyEvents, Spared;
    TakesSome(s, i, t, seconds);
    var (store, task) := ClaimTask(s.agents[i].store, i, s.now, seconds);
    if task.value.id == t {
      s' := Starts(s, i, seconds);
      x := Exec(s.nextEvent, task.value.id, task.value.attempt, task.value.maxAttempts);
      steps, others, source := Starting(i, seconds, s.rid, s.nextEvent), s.crm.run.tasks, task.value.source;
      SparedHere(s.crm.run.tasks, t);
    } else {
      var first, rest, u;
      first, u := DoesOne(s, i, seconds);
      rest, s', x, others, source := Reaches(u, i, t, seconds);
      SparedJoins(s.crm.run.tasks, u.crm.run.tasks, others, t);
      OnwardJoins(s, u, s', i);
      RunsJoin(s, first, u, rest, s');
      steps := first + rest;
    }
  }

  lemma SparedHere(tasks: seq<ClaimedTask>, t: TaskId)
    ensures Spared(tasks, tasks, t)
  {
  }

  // ---------- what a claim loads ----------

  /** The entry that ensure_run keeps for an id is the last one. */
  ghost predicate LastOf(tasks: seq<ClaimedTask>, j: nat) {
    j < |tasks| && forall i :: j < i < |tasks| ==> tasks[i].id != tasks[j].id
  }

  lemma {:induction false} ReloadKeepsLast(run: MemoryRun, tasks: seq<ClaimedTask>, now: nat, j: nat)
    requires LastOf(tasks, j)
    ensures tasks[j].id in Reload(run, tasks, now).tasks && BuiltFrom(Reload(run, tasks, now).tasks[tasks[j].id], tasks[j], now)
  {
    var n := |tasks| - 1;
    if j < n { ReloadKeepsLast(run, tasks[..n], now, j); }
  }

  lemma {:induction false} NotKept(run: MemoryRun, tasks: seq<ClaimedTask>, now: nat, j: nat)
    requires LastOf(tasks, j) && !QueuedCompletion(run, tasks[j].id)
    ensures tasks[j].id in Reload(run, tasks, now).tasks && Reload(run, tasks, now).tasks[tasks[j].id].status == tasks[j].status
  {
    var n := |tasks| - 1;
    if j < n { NotKept(run, tasks[..n], now, j); }
  }

  lemma LoadedLast(run: MemoryRun, claim: Claim, worker: AgentId, now: nat, j: nat)
    requires LastOf(claim.tasks, j) && !QueuedCompletion(run, claim.tasks[j].id)
    ensures var t := claim.tasks[j].id; var loaded := EnsureRun(run, claim, Some(worker), now);
      t in loaded.tasks && loaded.tasks[t].status == claim.tasks[j].status && BuiltFrom(loaded.tasks[t], claim.tasks[j], now)
  {
    hide QueuedCompletion, BuiltFrom;
    ReloadKeepsLast(run, claim.tasks, now, j);
    NotKept(run, claim.tasks, now, j);
    assert Listed(claim.tasks, claim.tasks[j].id);
    hide Reload;
  }

  lemma NothingQueued(run: MemoryRun, t: TaskId)
    requires Drained(run)
    ensures !QueuedCompletion(run, t)
  {
  }

  lemma NotCompleted(run: MemoryRun, k: Key, e: RunEvent, t: TaskId)
    requires (forall m :: Queued(run, m) <==> m == k) && k in run.outbox && run.outbox[k] == Events([e]) && e.status != Some(Completed)
    ensures !QueuedCompletion(run, t)
  {
  }

  /** The record is the one that the CRM's entry gives. */
  ghost predicate LoadedAs(store: MemoryRun, c: ClaimedTask, now: nat) {
    && c.id in store.tasks && store.tasks[c.id].status == c.status && store.tasks[c.id].attempts == c.attempts
    && store.tasks[c.id].maxAttempts == c.maxAttempts && (c.status == Running ==> Expired(store.tasks[c.id], now))
  }

  /** The worker has loaded the claim and is at the top of the loop. */
  ghost predicate Loaded(s: Sys, s': Sys, i: AgentId, c: ClaimedTask) {
    && s'.writes == s.writes && s'.rid == s.rid && s'.refuses == s.refuses && s'.now == s.now && s'.nextEvent == s.nextEvent
    && OthersSame(s, s', i) && i in s.agents && AtRest(s', i) && LoadedAs(s'.agents[i].store, c, s'.now)
    && s'.agents[i].store.cap == s.agents[i].store.cap && s'.agents[i].store.outbox == s.agents[i].store.outbox
    && s'.crm.run.tasks == s.crm.run.tasks && s'.crm.run.maxCandidates == s.crm.run.maxCandidates && s'.crm.run.status == RunRunning
  }

  /** Opening a session loads the last entry of each id. */
  lemma OpensWith(s: Sys, i: AgentId, j: nat, seconds: nat) returns (s': Sys)
    requires i in s.agents && s.agents[i].pc.Idle? && Claimable(s.crm.run, s.now) && Ordered(s.agents[i].store)
    requires LastOf(s.crm.run.tasks, j) && s.crm.run.tasks[j].status.Open() && !QueuedCompletion(s.agents[i].store, s.crm.run.tasks[j].id)
    ensures Runs(s, Opening(i, seconds), s') && Opened(s, s', i, seconds)
    ensures var a, b := s.agents[i].store, s'.agents[i].store;
      && LoadedAs(b, s.crm.run.tasks[j], s.now) && SameOutbox(a, b) && Rests(b, s.now) && b.baseline == Max(a.baseline, |s.crm.run.candidates|)
  {
    hide Runs, EnsureRun, Rests, QueuedCompletion;
    var a, claim := s.agents[i].store, ClaimOf(s.crm.run, s.now, seconds, s.nextToken);
    LoadedLast(a, claim, i, s.now, j);
    EnsureKeepsOutbox(a, claim, Some(i), s.now);
    EnsureRests(a, claim, Some(i), s.now);
    s' := Opens(s, i, seconds);
  }

  lemma StillDrained(a: MemoryRun, b: MemoryRun)
    requires Drained(a) && SameOutbox(a, b)
    ensures Drained(b)
  {
    forall k ensures !Queued(b, k) { assert !Queued(a, k); }
  }

  /** In a session just opened, what was queued before can be delivered. */
  lemma OpenedDelivers(s: Sys, t: Sys, i: AgentId, k: Key)
    requires Opened(s, t, i, 1) && SameOutbox(s.agents[i].store, t.agents[i].store) && Queued(s.agents[i].store, k)
    ensures CanDeliver(t, i, k) && In(t.agents[i].pc, Draining(ToTop)) && t.agents[i].pc.token == s.nextToken
    ensures ValidLease(t.crm.run, t.agents[i].pc.token, t.now) && t.agents[i].store.outbox == s.agents[i].store.outbox
    ensures t.crm.idem == s.crm.idem && t.crm.run.candidates == s.crm.run.candidates && t.crm.run.tasks == s.crm.run.tasks
    ensures t.crm.run.status == RunRunning && t.crm.run.maxCandidates == s.crm.run.maxCandidates
    ensures t.rid == s.rid && t.refuses == s.refuses && t.nextEvent == s.nextEvent && OthersSame(s, t, i)
  {
    hide EnsureRun;
  }

  /** A worker with an empty outbox is granted the run's lease and reaches the top of the loop. */
  lemma Loads(s: Sys, i: AgentId, j: nat) returns (s': Sys)
    requires Willing(s, i) && s.agents[i].pc.Idle? && Claimable(s.crm.run, s.now) && Drained(s.agents[i].store)
    requires LastOf(s.crm.run.tasks, j) && s.crm.run.tasks[j].status.Open()
    ensures Runs(s, Opening(i, 1) + [Work(i, DrainEnds)], s') && Loaded(s, s', i, s.crm.run.tasks[j])
    ensures s'.crm.run.candidates == s.crm.run.candidates && s'.crm.idem == s.crm.idem
    ensures s'.agents[i].store.baseline == Max(s.agents[i].store.baseline, |s.crm.run.candidates|)
    ensures exists t :: Opened(s, t, i, 1) && s'.agents[i].store == t.agents[i].store
  {
    hide Runs, EnsureRun, Rests, Drained, QueuedCompletion;
    NothingQueued(s.agents[i].store, s.crm.run.tasks[j].id);
    var t := OpensWith(s, i, j, 1);
    StillDrained(s.agents[i].store, t.agents[i].store);
    s' := Drains(t, i);
    RunsJoin(s, Opening(i, 1), t, [Work(i, DrainEnds)], s');
  }

  /** The worker stops, and time passes until its lease has run out. */
  lemma Lapses(s: Sys, i: AgentId) returns (s': Sys)
    requires i in s.agents && s.crm.run.status == RunRunning && s.crm.run.lease.Some?
    ensures Runs(s, [Work(i, Leave), World(Tick(s.crm.run.lease.value.expires))], s') && Claimable(s'.crm.run, s'.now)
    ensures s' == With(s, i, s.agents[i].store, Idle).(now := s'.now)
  {
    var late := s.crm.run.lease.value.expires;
    var t := AfterWork(s, i, Leave);
    RunsOne(s, Work(i, Leave));
    s' := AfterWorld(t, Tick(late));
    hide Runs;
    RunsNext(s, [Work(i, Leave)], t, World(Tick(late)));
    assert [Work(i, Leave)] + [World(Tick(late))] == [Work(i, Leave), World(Tick(late))];
  }

  // ---------- the first session ----------

  /** No candidates key of the run is known to the CRM, which holds no candidate. */
  ghost predicate NoCandidates(s: Sys) {
    s.crm.run.candidates == map[] && forall k :: k in s.crm.idem && k.Owner() == s.rid ==> k.EventKey?
  }

  lemma BeginsWilling(s: Sys, i: AgentId)
    requires Begins(s) && EventsPass(s) && i in s.agents && s.crm.run.maxCandidates > 0
    ensures Willing(s, i) && s.agents[i] == Agent(NewMemoryRun(s.crm.run.maxCandidates), Idle) && Claimable(s.crm.run, s.now)
    ensures NoCandidates(s) && s.writes == [] && Drained(s.agents[i].store)
  {
    forall e: EventId ensures EventKey(s.rid, e) !in s.crm.idem { assert EventKey(s.rid, e).Owner() == s.rid; }
  }
}
