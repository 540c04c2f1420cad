/** The task leases of any number of workers, each with its own store: only the task a worker is executing is owned,
    and nothing takes it away. */
module ProtocolLeases {
  import opened Contracts
  import opened CrmSpec
  import opened StoreSpec
  import opened StoreLaws
  import opened Delivery
  import opened DeliveryLaws
  import opened Protocol
  import opened ProtocolSteps

  predicate WorksOn(pc: Pc, t: TaskId) {
    pc.Session? &&
    match pc.phase
    case Holding(task) => task.id == t
    case Ready(task) => task.id == t
    case Draining(next) => next.ToSearch? && next.exec.task == t
    case Doing(x, _) => x.task == t
    case _ => false
  }

  predicate InLoop(pc: Pc) { pc.Session? && pc.phase != Closing && pc.phase != Draining(ToExit) }

  /** Only the task being worked on is owned, and any other running record has expired. */
  ghost predicate Leased(now: nat, i: AgentId, a: Agent) {
    InLoop(a.pc) ==> forall t :: t in a.store.tasks ==>
      var r := a.store.tasks[t];
      && (r.owner.Some? ==> r.owner == Some(i) && WorksOn(a.pc, t) && r.status == Running
                            && (a.pc.phase.Doing? ==> a.pc.phase.stage != Finished && a.pc.phase.stage != Failing))
      && (r.status == Running ==> r.expires.Some? && (r.owner == None ==> r.expires.value <= now))
  }

  /** The task worked on is running and owned by the worker until it is finished or given back. */
  ghost predicate Tended(i: AgentId, a: Agent) {
    forall t :: WorksOn(a.pc, t) ==>
      && t in a.store.tasks
      && if a.pc.phase.Doing? && a.pc.phase.stage == Finished
         then a.store.tasks[t].status == Completed && a.store.tasks[t].owner == None
         else (a.pc.phase.Doing? && a.pc.phase.stage == Failing) || Tends(a.store, t, i)
  }

  predicate TaskEvent(p: Payload) { p.Events? && |p.events| == 1 && p.events[0].task.Some? }

  /** A running event carries its attempt; the reports about an execution carry none. */
  predicate GoodEvent(e: RunEvent) {
    e.task.Some? ==>
      if e.attempt.Some? then e.status == Some(Running)
      else e.status == Some(Completed) || e.status == Some(Pending) || e.status == Some(Failed)
  }

  /** Every event is a message of its own. */
  ghost predicate Shaped(store: MemoryRun) {
    && (forall k :: k in store.outbox && store.outbox[k].Events? ==> k.EventKey?)
    && forall k :: k in store.outbox && k.EventKey? ==>
      var p := store.outbox[k]; p.Events? && |p.events| == 1 && p.events[0].id == k.event && GoodEvent(p.events[0])
  }

  ghost predicate Steady(now: nat, i: AgentId, a: Agent) {
    Leased(now, i, a) && Tended(i, a) && Ordered(a.store) && Shaped(a.store)
  }

  ghost predicate Inv(s: Sys) {
    forall i :: i in s.agents ==> Steady(s.now, i, s.agents[i])
  }

  // ---------- one worker moves ----------

  lemma OneMoves(s: Sys, s': Sys, i: AgentId)
    requires Inv(s) && i in s.agents && OthersSame(s, s', i) && i in s'.agents && s'.now == s.now
    requires Steady(s.now, i, s'.agents[i])
    ensures Inv(s')
  {
    hide Steady;
    forall j | j in s'.agents ensures Steady(s'.now, j, s'.agents[j]) {
      if j != i { assert s'.agents[j] == s.agents[j]; }
    }
  }

  lemma TimePasses(s: Sys, s': Sys)
    requires Inv(s) && s'.agents == s.agents && s.now <= s'.now
    ensures Inv(s')
  {
  }

  lemma LoadedKept(s: Sys, i: AgentId)
    requires i in s.agents && s.agents[i].pc.Claimed? && Steady(s.now, i, s.agents[i])
    ensures Steady(s.now, i, Ensured(s, i).agents[i])
  {
    var a, b := s.agents[i], Ensured(s, i).agents[i];
    EnsureKeepsOutbox(a.store, a.pc.claim, Some(i), s.now);
    ReloadOrders(a.store, a.pc.claim.tasks, s.now);
    forall t | t in b.store.tasks
      ensures b.store.tasks[t].owner == None && (b.store.tasks[t].status == Running ==> b.store.tasks[t].expires == Some(s.now))
    {
      EnsureUnowned(a.store, a.pc.claim, Some(i), s.now, t);
      if Listed(a.pc.claim.tasks, t) { var _ := ReloadBuilds(a.store, a.pc.claim.tasks, s.now, t); }
    }
    hide EnsureRun;
  }

  lemma TakenKept(s: Sys, i: AgentId, seconds: nat)
    requires CanTake(s, i, seconds) && Steady(s.now, i, s.agents[i])
    ensures Steady(s.now, i, Took(s, i, seconds).agents[i])
  {
    ClaimTaskTakes(s.agents[i].store, i, s.now, seconds);
    hide ClaimTask;
  }

  lemma LeaseKept(s: Sys, i: AgentId, l: LeaseStep)
    requires LeaseEnabled(s, i, l) && Steady(s.now, i, s.agents[i])
    ensures i in AfterLease(s, i, l).agents && Steady(s.now, i, AfterLease(s, i, l).agents[i]) && AfterLease(s, i, l).now == s.now
  {
    match l
    case ClaimRun(_) =>
    case Ensure => LoadedKept(s, i);
    case TakeTask(seconds) => TakenKept(s, i, seconds);
    case Renew(_) =>
    case BeatRun(_) =>
  }

  lemma PassedKept(s: Sys, i: AgentId, seconds: nat)
    requires WorkEnabled(s, i, Pass(seconds)) && Steady(s.now, i, s.agents[i])
    ensures Steady(s.now, i, Worked(s.agents[i], i, s.now, Pass(seconds)))
  {
    ClaimTaskTakes(s.agents[i].store, i, s.now, seconds);
    hide ClaimTask;
  }

  lemma WorkKept(s: Sys, i: AgentId, w: WorkStep)
    requires WorkEnabled(s, i, w) && Steady(s.now, i, s.agents[i])
    ensures Steady(s.now, i, Worked(s.agents[i], i, s.now, w))
  {
    hide ClaimTask, FinishTask, FailTask;
    if w.Pass? { PassedKept(s, i, w.seconds); }
    if w.Finish? || w.GiveBack? { SettledKept(s, i, w); }
  }

  lemma SettledKept(s: Sys, i: AgentId, w: WorkStep)
    requires WorkEnabled(s, i, w) && (w.Finish? || w.GiveBack?) && Steady(s.now, i, s.agents[i])
    ensures Steady(s.now, i, Worked(s.agents[i], i, s.now, w))
  {
  }

  /** How queueing a message moves a worker on. */
  predicate Goes(a: Pc, b: Pc) {
    || b == a || (b.Session? && !InLoop(b))
    || (At(a, Searching) && At(b, Saved) && b.phase.exec == a.phase.exec)
    || (a.Session? && a.phase.Ready? && DrainingTo(b) && b.phase.next.ToSearch? && b.phase.next.exec.task == a.phase.task.id)
    || ((At(a, Finished) || At(a, Failing)) && In(b, Draining(ToTop)))
  }

  lemma QueueGoes(s: Sys, i: AgentId, q: QueueStep)
    requires QueueEnabled(s, i, q)
    ensures i in AfterQueue(s, i, q).agents && Goes(s.agents[i].pc, AfterQueue(s, i, q).agents[i].pc)
  {
  }

  lemma QueueFrame(s: Sys, i: AgentId, q: QueueStep)
    requires QueueEnabled(s, i, q)
    ensures OthersSame(s, AfterQueue(s, i, q), i) && i in AfterQueue(s, i, q).agents
    ensures AfterQueue(s, i, q).agents[i].store.tasks == s.agents[i].store.tasks
    ensures AfterQueue(s, i, q).agents[i].store.order == s.agents[i].store.order
  {
    if q == Save([]) { EmptySaveIsQuiet(s, i); } else { QueueingPuts(s, i, q); }
    hide QueueEnabled;
  }

  lemma QueueNow(s: Sys, i: AgentId, q: QueueStep)
    requires QueueEnabled(s, i, q)
    ensures AfterQueue(s, i, q).now == s.now
  {
  }

  lemma QueueShaped(s: Sys, i: AgentId, q: QueueStep)
    requires QueueEnabled(s, i, q) && Shaped(s.agents[i].store)
    ensures i in AfterQueue(s, i, q).agents && Shaped(AfterQueue(s, i, q).agents[i].store)
  {
    if q == Save([]) {
      EmptySaveIsQuiet(s, i);
    } else {
      QueueingPuts(s, i, q);
      MessageShaped(s, i, q);
      hide AfterQueue, MessageKey, MessageOf, QueueEnabled;
    }
  }

  lemma MessageShaped(s: Sys, i: AgentId, q: QueueStep)
    requires QueueEnabled(s, i, q)
    ensures var k, p := MessageKey(s, i, q), MessageOf(s, i, q);
      (p.Events? <==> k.EventKey?) && (p.Events? ==> |p.events| == 1 && p.events[0].id == k.event && GoodEvent(p.events[0]))
  {
  }

  lemma GoneKept(now: nat, i: AgentId, a: Agent, b: Agent)
    requires Shaped(b.store)
    requires Steady(now, i, a) && b.store.tasks == a.store.tasks && b.store.order == a.store.order && Goes(a.pc, b.pc)
    ensures Steady(now, i, b)
  {
  }

  /** An old message, or half of a batch. */
  predicate SameMessage(a: MemoryRun, b: MemoryRun, k: Key) {
    k in b.outbox && ((k in a.outbox && b.outbox[k] == a.outbox[k]) || (k.SplitKey? && b.outbox[k].Candidates?))
  }

  /** A delivery leaves the tasks alone; the worker stays where it is or leaves the loop. */
  lemma TriedKept(now: nat, i: AgentId, a: Agent, b: Agent)
    requires Steady(now, i, a) && b.store.tasks == a.store.tasks && b.store.order == a.store.order
    requires b.pc == a.pc || b.pc.Idle? || In(b.pc, Closing)
    requires forall k :: k in b.store.outbox ==> SameMessage(a.store, b.store, k)
    ensures Steady(now, i, b)
  {
  }

  // ---------- every run ----------

  lemma DeliverKept(s: Sys, i: AgentId, k: Key, channel: Channel)
    requires CanDeliver(s, i, k) && Steady(s.now, i, s.agents[i])
    ensures i in Delivered(s, i, k, channel).agents && Steady(s.now, i, Delivered(s, i, k, channel).agents[i])
    ensures OthersSame(s, Delivered(s, i, k, channel), i) && Delivered(s, i, k, channel).now == s.now
  {
    DeliveringLogs(s, i, k, channel);
    var a, b, p := s.agents[i], Delivered(s, i, k, channel).agents[i], s.agents[i].store.outbox[k];
    forall m | m in b.store.outbox && m !in a.store.outbox ensures m.SplitKey? && b.store.outbox[m].Candidates? {
      DeliverySplits(s.crm, a.store, a.pc.token, s.now, k, channel, s.refuses(p), m);
    }
    hide StoreAfter, CrmAfter, Steady;
    TriedKept(s.now, i, s.agents[i], Delivered(s, i, k, channel).agents[i]);
  }

  lemma ReplayKept(s: Sys, i: AgentId, k: Key, channel: Channel)
    requires CanReplay(s, i, k) && Steady(s.now, i, s.agents[i])
    ensures i in Replayed(s, i, k, channel).agents && Steady(s.now, i, Replayed(s, i, k, channel).agents[i])
    ensures OthersSame(s, Replayed(s, i, k, channel), i) && Replayed(s, i, k, channel).now == s.now
  {
    ReplayingLogs(s, i, k, channel);
    assert Replayed(s, i, k, channel).agents[i].store.outbox == s.agents[i].store.outbox;
    hide StoreAfterReplay, CrmAfter, Steady;
    TriedKept(s.now, i, s.agents[i], Replayed(s, i, k, channel).agents[i]);
  }

  lemma LeaseStepKeeps(s: Sys, i: AgentId, l: LeaseStep)
    requires Inv(s) && LeaseEnabled(s, i, l)
    ensures Inv(AfterLease(s, i, l))
  {
    assert Steady(s.now, i, s.agents[i]);
    LeaseIsQuiet(s, i, l);
    hide Inv, Steady, AfterLease, QuietFor, SameRecords, SameStory;
    LeaseKept(s, i, l);
    OneMoves(s, AfterLease(s, i, l), i);
  }

  lemma WorkStepKeeps(s: Sys, i: AgentId, w: WorkStep)
    requires Inv(s) && WorkEnabled(s, i, w)
    ensures Inv(AfterWork(s, i, w))
  {
    assert Steady(s.now, i, s.agents[i]);
    hide Inv, Steady, Worked;
    WorkKept(s, i, w);
    OneMoves(s, AfterWork(s, i, w), i);
  }

  lemma QueueStepKeeps(s: Sys, i: AgentId, q: QueueStep)
    requires Inv(s) && QueueEnabled(s, i, q)
    ensures Inv(AfterQueue(s, i, q))
  {
    assert Steady(s.now, i, s.agents[i]);
    assert Shaped(s.agents[i].store);
    hide Inv, Steady, AfterQueue, Goes, Shaped;
    QueueShaped(s, i, q);
    QueueFrame(s, i, q);
    QueueGoes(s, i, q);
    QueueNow(s, i, q);
    GoneKept(s.now, i, s.agents[i], AfterQueue(s, i, q).agents[i]);
    OneMoves(s, AfterQueue(s, i, q), i);
  }

  lemma DeliverStepKeeps(s: Sys, i: AgentId, k: Key, channel: Channel)
    requires Inv(s) && CanDeliver(s, i, k)
    ensures Inv(Delivered(s, i, k, channel))
  {
    assert Steady(s.now, i, s.agents[i]);
    hide Inv, Steady, Delivered;
    DeliverKept(s, i, k, channel);
    OneMoves(s, Delivered(s, i, k, channel), i);
  }

  lemma ReplayStepKeeps(s: Sys, i: AgentId, k: Key, channel: Channel)
    requires Inv(s) && CanReplay(s, i, k)
    ensures Inv(Replayed(s, i, k, channel))
  {
    assert Steady(s.now, i, s.agents[i]);
    hide Inv, Steady, Replayed;
    ReplayKept(s, i, k, channel);
    OneMoves(s, Replayed(s, i, k, channel), i);
  }

  lemma StepKeeps(s: Sys, step: Step)
    requires Inv(s) && Enabled(s, step)
    ensures Inv(Apply(s, step))
  {
    hide Inv, LeaseEnabled, WorkEnabled, QueueEnabled, CanDeliver, CanReplay, AfterLease, AfterWork, AfterQueue, Delivered, Replayed;
    match step
    case World(w) => TimePasses(s, AfterWorld(s, w));
    case Lease(i, l) => LeaseStepKeeps(s, i, l);
    case Work(i, w) => WorkStepKeeps(s, i, w);
    case Queue(i, q) => QueueStepKeeps(s, i, q);
    case Deliver(i, k, channel) => DeliverStepKeeps(s, i, k, channel);
    case Replay(i, k, channel) => ReplayStepKeeps(s, i, k, channel);
  }

  lemma InitInv(s: Sys)
    requires Init(s)
    ensures Inv(s)
  {
  }

  lemma ReachableInv(s: Sys)
    requires Reachable(s)
    ensures Inv(s)
  {
    hide Inv, Init, Enabled, Apply, Reachable;
    forall t | Init(t) ensures Inv(t) { InitInv(t); }
    forall t, step | Inv(t) && Enabled(t, step) ensures Inv(Apply(t, step)) { StepKeeps(t, step); }
    ReachableKeep(Inv, s);
  }

  /** While a source is searched, the task's lease heartbeat cannot fail, whatever other workers do in their stores. */
  lemma TaskLeaseHolds(s: Sys, i: AgentId)
    requires Reachable(s) && i in s.agents && At(s.agents[i].pc, Searching)
    ensures Tends(s.agents[i].store, s.agents[i].pc.phase.exec.task, i)
  {
    ReachableInv(s);
    assert Steady(s.now, i, s.agents[i]) && WorksOn(s.agents[i].pc, s.agents[i].pc.phase.exec.task);
  }
}
