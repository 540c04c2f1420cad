/** One worker process with one durable store: a finished task is never searched again, and work runs out. */
module ProtocolSingle {
  import opened Contracts
  import opened CrmSpec
  import opened CrmLaws
  import opened StoreSpec
  import opened StoreLaws
  import opened Delivery
  import opened DeliveryLaws
  import opened Protocol
  import opened ProtocolSteps
  import Keys = ProtocolKeys
  import Counts = ProtocolCounts
  import Ends = ProtocolTerminal
  import Leases = ProtocolLeases

  // ---------- messages that can still change a task ----------

  predicate About(p: Payload, t: TaskId) { Leases.TaskEvent(p) && p.events[0].task == Some(t) }

  /** A task event of the outbox that the CRM has not accepted and that can still be delivered. */
  ghost predicate Outstanding(s: Sys, store: MemoryRun, k: Key) {
    k.EventKey? && k in store.outbox && k !in s.crm.idem && k !in store.dead && Leases.TaskEvent(store.outbox[k])
  }

  // ---------- where the worker is ----------

  predicate Working(pc: Pc) {
    pc.Session? && (pc.phase.Holding? || pc.phase.Ready? || pc.phase.Doing? || (pc.phase.Draining? && pc.phase.next.ToSearch?))
  }

  /** Phases that start with a drained outbox and add no task event. */
  predicate Clear(pc: Pc) {
    pc.Session? && (pc.phase == AtTop || pc.phase.Holding? || pc.phase.Ready? || pc.phase.Doing?)
  }

  /** The task was claimed and its running event may not have been accepted yet. */
  predicate Early(pc: Pc, t: TaskId) { Leases.WorksOn(pc, t) && !pc.phase.Doing? }

  ghost predicate OneAtATime(s: Sys, a: Agent) {
    && (forall k, m :: Outstanding(s, a.store, k) && Outstanding(s, a.store, m) ==> k == m)
    && (Clear(a.pc) ==> forall k :: !Outstanding(s, a.store, k))
    && (a.pc.Session? && a.pc.phase.Draining? && a.pc.phase.next.ToSearch? ==>
          forall k :: Outstanding(s, a.store, k) ==> k == EventKey(s.rid, a.pc.phase.next.exec.event))
    && (a.store.dead != {} ==> !Working(a.pc))
  }

  // ---------- the invariant, task by task ----------

  predicate Over(run: FakeRun) { run.status != RunPending && run.status != RunRunning }

  predicate Engaged(t: ClaimedTask) { t.status == Running || t.status == Cancelled }

  /** A pending task has attempts left; a task is cancelled only with its run. */
  predicate CrmSide(run: FakeRun, t: ClaimedTask) {
    (t.status == Pending ==> t.attempts < t.maxAttempts) && (t.status == Cancelled ==> Over(run))
  }

  ghost predicate Allows(s: Sys, t: ClaimedTask, k: Key, e: RunEvent) {
    && (e.attempt.Some? ==> e.attempt.value <= t.attempts + 1)
    && (e.status == Some(Pending) ==> t.attempts < t.maxAttempts)
    && (e.status == Some(Completed) ==> Engaged(t) && k.EventKey? && t.id in s.done && s.done[t.id] == k.event)
  }

  ghost predicate Messages(s: Sys, store: MemoryRun, t: ClaimedTask) {
    forall k :: Outstanding(s, store, k) && About(store.outbox[k], t.id) ==> Allows(s, t, k, store.outbox[k].events[0])
  }

  /** While tasks are still claimed the store and the CRM are at most one attempt apart. */
  ghost predicate Near(s: Sys, a: Agent, t: ClaimedTask, r: TaskRecord) {
    && (if Early(a.pc, t.id) then t.attempts <= r.attempts <= t.attempts + 1
        else r.attempts <= t.attempts <= r.attempts + 1)
    && (forall k :: Outstanding(s, a.store, k) && About(a.store.outbox[k], t.id) && a.store.outbox[k].events[0].attempt.Some?
          ==> a.store.outbox[k].events[0].attempt.value <= r.attempts + 1)
  }

  ghost predicate RecordSide(s: Sys, a: Agent, t: ClaimedTask) {
    t.id in a.store.tasks ==>
      var r := a.store.tasks[t.id];
      && r.maxAttempts == t.maxAttempts && (r.status == Pending ==> r.attempts < r.maxAttempts)
      && (Leases.InLoop(a.pc) && Keys.Live(r) ==> Near(s, a, t, r))
  }

  ghost predicate HeldAs(store: MemoryRun, t: ClaimedTask, attempt: nat, maxAttempts: nat) {
    && t.id in store.tasks && Keys.Live(store.tasks[t.id]) && store.tasks[t.id].attempts == attempt
    && maxAttempts == t.maxAttempts
  }

  ghost predicate WorkSide(s: Sys, a: Agent, t: ClaimedTask) {
    Leases.WorksOn(a.pc, t.id) ==>
      match a.pc.phase
      case Holding(task) => HeldAs(a.store, t, task.attempt, task.maxAttempts)
      case Ready(task) => HeldAs(a.store, t, task.attempt, task.maxAttempts)
      case Draining(next) =>
        HeldAs(a.store, t, next.exec.attempt, next.exec.maxAttempts)
        && (EventKey(s.rid, next.exec.event) in s.crm.idem ==> Engaged(t))
      case Doing(x, _) =>
        Engaged(t) && t.attempts == x.attempt && t.maxAttempts == x.maxAttempts && t.id in a.store.tasks
      case _ => true
  }

  /** A task whose completion is queued stays completed in the store, on the CRM it is running until the event
      is accepted and completed afterwards, and no other event about it is outstanding. */
  ghost predicate DoneSide(s: Sys, a: Agent, t: ClaimedTask) {
    a.store.dead == {} && t.id in s.done ==>
      var c := EventKey(s.rid, s.done[t.id]);
      && c in a.store.outbox && About(a.store.outbox[c], t.id) && a.store.outbox[c].events[0].status == Some(Completed)
      && t.id in a.store.tasks && a.store.tasks[t.id].status == Completed && a.store.tasks[t.id].owner == None
      && !Leases.WorksOn(a.pc, t.id)
      && (if c in s.crm.idem then t.status == Completed else Engaged(t))
      && (forall k :: Outstanding(s, a.store, k) && About(a.store.outbox[k], t.id) ==> k == c)
  }

  ghost predicate TaskInv(s: Sys, a: Agent, t: ClaimedTask) {
    CrmSide(s.crm.run, t) && Messages(s, a.store, t) && RecordSide(s, a, t) && WorkSide(s, a, t) && DoneSide(s, a, t)
  }

  /** A claimed specification is the CRM's task, which can only have been cancelled since. */
  predicate SpecOf(c: ClaimedTask, t: ClaimedTask) {
    && c.id == t.id && c.attempts == t.attempts && c.maxAttempts == t.maxAttempts && c.status != Cancelled
    && (c.status == t.status || (t.status == Cancelled && c.status.Open()))
    && (c.status == Pending ==> c.attempts < c.maxAttempts)
  }

  ghost predicate ClaimSide(s: Sys, pc: Pc) {
    pc.Claimed? ==>
      && |pc.claim.tasks| == |s.crm.run.tasks|
      && forall j :: 0 <= j < |s.crm.run.tasks| ==> SpecOf(pc.claim.tasks[j], s.crm.run.tasks[j])
  }

  ghost predicate Known(s: Sys, a: Agent) {
    && (forall t :: t in a.store.tasks ==> Listed(s.crm.run.tasks, t))
    && (forall t :: Leases.WorksOn(a.pc, t) ==> Listed(s.crm.run.tasks, t))
  }

  ghost predicate Tasks(s: Sys, a: Agent) {
    forall j :: 0 <= j < |s.crm.run.tasks| ==> TaskInv(s, a, s.crm.run.tasks[j])
  }

  ghost predicate Side(s: Sys, a: Agent) {
    && OneAtATime(s, a) && ClaimSide(s, a.pc) && Known(s, a) && Tasks(s, a)
  }

  ghost predicate Inv(s: Sys, i: AgentId) {
    Ends.Inv(s) && Leases.Inv(s) && s.agents.Keys == {i} && Side(s, s.agents[i])
  }

  // ---------- the world ----------

  /** Nothing that the invariant reads about the CRM has changed. */
  ghost predicate SameCrm(s: Sys, s': Sys) {
    && s'.rid == s.rid && s'.done == s.done && s.now <= s'.now && s'.crm.run.tasks == s.crm.run.tasks
    && (Over(s.crm.run) ==> Over(s'.crm.run))
    && (forall k: Key :: k.Owner() == s.rid ==> (k in s'.crm.idem <==> k in s.crm.idem))
  }

  ghost predicate OwnKeys(s: Sys, store: MemoryRun) {
    forall k :: k in store.outbox ==> k.Owner() == s.rid
  }

  lemma OutboxOwned(s: Sys, i: AgentId)
    requires Ends.Inv(s) && i in s.agents
    ensures OwnKeys(s, s.agents[i].store)
    ensures Counts.DeliveredMeans(s, s.agents[i].store)
  {
    hide Keys.Inv;
    assert Counts.AgentCounts(s, s.agents[i]);
    forall k | k in s.agents[i].store.outbox ensures k.Owner() == s.rid {
      assert Counts.Proper(s.rid, s.written, k, s.agents[i].store.outbox[k]);
    }
  }

  lemma SameOutstanding(s: Sys, s': Sys, store: MemoryRun, k: Key)
    requires SameCrm(s, s') && OwnKeys(s, store)
    ensures Outstanding(s', store, k) <==> Outstanding(s, store, k)
  {
  }

  lemma SameTask(s: Sys, s': Sys, a: Agent, t: ClaimedTask)
    requires TaskInv(s, a, t) && SameCrm(s, s') && OwnKeys(s, a.store)
    ensures TaskInv(s', a, t)
  {
  }

  lemma SameSide(s: Sys, s': Sys, a: Agent)
    requires Side(s, a) && SameCrm(s, s') && OwnKeys(s, a.store)
    ensures Side(s', a)
  {
    forall k ensures Outstanding(s', a.store, k) <==> Outstanding(s, a.store, k) { SameOutstanding(s, s', a.store, k); }
    forall j | 0 <= j < |s.crm.run.tasks| ensures TaskInv(s', a, s'.crm.run.tasks[j]) {
      SameTask(s, s', a, s.crm.run.tasks[j]);
    }
  }

  lemma CancelledTask(s: Sys, s': Sys, a: Agent, t: ClaimedTask)
    requires TaskInv(s, a, t) && s' == s.(crm := s.crm.(run := CancelRun(s.crm.run)))
    ensures TaskInv(s', a, CancelTask(t))
  {
  }

  lemma CancelledSide(s: Sys, s': Sys, a: Agent)
    requires Side(s, a) && s' == s.(crm := s.crm.(run := CancelRun(s.crm.run)))
    ensures Side(s', a)
  {
    forall j | 0 <= j < |s.crm.run.tasks| ensures TaskInv(s', a, s'.crm.run.tasks[j]) {
      CancelledTask(s, s', a, s.crm.run.tasks[j]);
    }
    forall t | Listed(s.crm.run.tasks, t) ensures Listed(s'.crm.run.tasks, t) {
      var j :| 0 <= j < |s.crm.run.tasks| && s.crm.run.tasks[j].id == t;
      assert s'.crm.run.tasks[j].id == t;
    }
    forall k ensures Outstanding(s', a.store, k) <==> Outstanding(s, a.store, k) {}
    hide TaskInv, Outstanding;
    assert OneAtATime(s', a);
    assert ClaimSide(s', a.pc);
    assert Known(s', a);
    assert Tasks(s', a);
  }

  lemma WorldSteps(s: Sys, i: AgentId, w: WorldStep)
    requires Ends.Inv(s) && i in s.agents && Side(s, s.agents[i]) && WorldEnabled(s, w)
    ensures Side(AfterWorld(s, w), s.agents[i])
  {
    OutboxOwned(s, i);
    hide Ends.Inv, Side;
    if w.RequestCancel? {
      CancelledSide(s, AfterWorld(s, w), s.agents[i]);
    } else {
      SameSide(s, AfterWorld(s, w), s.agents[i]);
    }
  }

  // ---------- claims ----------

  lemma GrantSide(s: Sys, i: AgentId, seconds: nat)
    requires i in s.agents && Side(s, s.agents[i]) && OwnKeys(s, s.agents[i].store)
    requires s.agents[i].pc.Idle? && Claimable(s.crm.run, s.now)
    ensures Side(Granting(s, i, seconds), Granting(s, i, seconds).agents[i])
  {
    var s', a := Granting(s, i, seconds), s.agents[i];
    SameSide(s, s', a);
    forall j | 0 <= j < |s'.crm.run.tasks| ensures TaskInv(s', s'.agents[i], s'.crm.run.tasks[j]) {
      assert TaskInv(s', a, s'.crm.run.tasks[j]);
    }
    forall j | 0 <= j < |s.crm.run.tasks| ensures SpecOf(s.crm.run.tasks[j], s.crm.run.tasks[j]) {
      assert TaskInv(s, a, s.crm.run.tasks[j]);
    }
  }

  /** The completion event of a done task that the CRM has not accepted is still queued. */
  lemma CompletionQueued(s: Sys, i: AgentId, t: ClaimedTask)
    requires i in s.agents && DoneSide(s, s.agents[i], t) && t.id in s.done && s.agents[i].store.dead == {}
    requires Counts.DeliveredMeans(s, s.agents[i].store) && EventKey(s.rid, s.done[t.id]) !in s.crm.idem
    ensures QueuedCompletion(s.agents[i].store, t.id)
  {
    var store, c := s.agents[i].store, EventKey(s.rid, s.done[t.id]);
    assert Queued(store, c) && Completes(store.outbox[c].events[0], t.id);
  }

  lemma EnsuredTask(s: Sys, i: AgentId, j: nat)
    requires i in s.agents && s.agents[i].pc.Claimed? && ClaimSide(s, s.agents[i].pc) && j < |s.crm.run.tasks|
    requires DistinctIds(s.agents[i].pc.claim.tasks) && Counts.DeliveredMeans(s, s.agents[i].store)
    requires TaskInv(s, s.agents[i], s.crm.run.tasks[j])
    ensures TaskInv(s, Ensured(s, i).agents[i], s.crm.run.tasks[j])
  {
    var a, b, t := s.agents[i], Ensured(s, i).agents[i], s.crm.run.tasks[j];
    var claim := a.pc.claim;
    var c := claim.tasks[j];
    assert SpecOf(c, t);
    EnsureExact(a.store, claim, Some(i), s.now, j);
    EnsureKeepsOutbox(a.store, claim, Some(i), s.now);
    if t.id in s.done && a.store.dead == {} {
      if EventKey(s.rid, s.done[t.id]) !in s.crm.idem { CompletionQueued(s, i, t); }
    }
    EnsuredParts(s, a, b, t, c, QueuedCompletion(a.store, t.id));
  }

  lemma EnsuredParts(s: Sys, a: Agent, b: Agent, t: ClaimedTask, c: ClaimedTask, queued: bool)
    requires TaskInv(s, a, t) && SpecOf(c, t) && SameOutbox(a.store, b.store) && t.id in b.store.tasks
    requires b.store.tasks[t.id] == FromClaim(c, Lookup(a.store.tasks, t.id), queued, s.now)
    requires b.pc.Session? && b.pc.phase == Draining(ToTop)
    requires t.id in s.done && a.store.dead == {} && EventKey(s.rid, s.done[t.id]) !in s.crm.idem ==> queued
    ensures TaskInv(s, b, t)
  {
    forall k ensures Outstanding(s, b.store, k) <==> Outstanding(s, a.store, k) {}
    assert RecordSide(s, b, t);
    assert DoneSide(s, b, t);
  }

  lemma ClaimDistinct(s: Sys, pc: Pc)
    requires ClaimSide(s, pc) && pc.Claimed? && DistinctIds(s.crm.run.tasks)
    ensures DistinctIds(pc.claim.tasks)
  {
    forall m, n | 0 <= m < n < |pc.claim.tasks| ensures pc.claim.tasks[m].id != pc.claim.tasks[n].id {
      assert SpecOf(pc.claim.tasks[m], s.crm.run.tasks[m]) && SpecOf(pc.claim.tasks[n], s.crm.run.tasks[n]);
    }
  }

  lemma EnsuredKnown(s: Sys, i: AgentId)
    requires i in s.agents && s.agents[i].pc.Claimed? && ClaimSide(s, s.agents[i].pc) && Known(s, s.agents[i])
    ensures Known(s, Ensured(s, i).agents[i])
  {
    var a, b := s.agents[i], Ensured(s, i).agents[i];
    Reloads(a.store, a.pc.claim.tasks, s.now);
    forall t | t in b.store.tasks
      ensures Listed(s.crm.run.tasks, t) && b.store.tasks[t].owner == None
      ensures b.store.tasks[t].status == Running ==> b.store.tasks[t].expires == Some(s.now)
    {
      EnsureUnowned(a.store, a.pc.claim, Some(i), s.now, t);
      if Listed(a.pc.claim.tasks, t) {
        var j :| 0 <= j < |a.pc.claim.tasks| && a.pc.claim.tasks[j].id == t;
        assert SpecOf(a.pc.claim.tasks[j], s.crm.run.tasks[j]);
        assert s.crm.run.tasks[j].id == t;
        var _ := ReloadBuilds(a.store, a.pc.claim.tasks, s.now, t);
      }
    }
  }

  lemma EnsuredSide(s: Sys, i: AgentId)
    requires i in s.agents && s.agents[i].pc.Claimed? && Side(s, s.agents[i]) && DistinctIds(s.crm.run.tasks)
    requires Counts.DeliveredMeans(s, s.agents[i].store)
    ensures Side(s, Ensured(s, i).agents[i])
  {
    var a, b := s.agents[i], Ensured(s, i).agents[i];
    EnsuredKnown(s, i);
    ClaimDistinct(s, a.pc);
    EnsureKeepsOutbox(a.store, a.pc.claim, Some(i), s.now);
    forall k ensures Outstanding(s, b.store, k) <==> Outstanding(s, a.store, k) {}
    forall j | 0 <= j < |s.crm.run.tasks| ensures TaskInv(s, b, s.crm.run.tasks[j]) { EnsuredTask(s, i, j); }
    hide TaskInv, Outstanding;
    assert OneAtATime(s, b);
  }

  // ---------- steps of the worker that leave the CRM and the task events alone ----------

  /** The outboxes hold the same task events and the same dead letters. */
  ghost predicate SameTaskEvents(a: MemoryRun, b: MemoryRun) {
    && b.dead == a.dead
    && (forall k :: k in a.outbox ==> k in b.outbox)
    && (forall k :: k in b.outbox && k.EventKey? ==>
          (k in a.outbox && b.outbox[k] == a.outbox[k]) || (k !in a.outbox && !Leases.TaskEvent(b.outbox[k])))
  }

  lemma SameMessages(s: Sys, a: Agent, b: Agent)
    requires SameTaskEvents(a.store, b.store)
    ensures forall k :: Outstanding(s, b.store, k) <==> Outstanding(s, a.store, k)
    ensures forall k :: Outstanding(s, b.store, k) ==> b.store.outbox[k] == a.store.outbox[k]
    ensures forall t :: Messages(s, a.store, t) ==> Messages(s, b.store, t)
  {
  }

  lemma SameOne(s: Sys, a: Agent, b: Agent)
    requires OneAtATime(s, a) && SameTaskEvents(a.store, b.store)
    requires Clear(b.pc) ==> Clear(a.pc)
    requires b.pc.Session? && b.pc.phase.Draining? && b.pc.phase.next.ToSearch? ==> b.pc == a.pc
    requires Working(b.pc) ==> Working(a.pc) || a.store.dead == {}
    ensures OneAtATime(s, b)
  {
    SameMessages(s, a, b);
    hide Outstanding;
  }

  lemma TakenTask(s: Sys, i: AgentId, seconds: nat, t: ClaimedTask)
    requires CanTake(s, i, seconds) && TaskInv(s, s.agents[i], t)
    ensures TaskInv(s, Took(s, i, seconds).agents[i], t)
  {
    var a, b := s.agents[i], Took(s, i, seconds).agents[i];
    ClaimTaskTakes(a.store, i, s.now, seconds);
    SameMessages(s, a, b);
    hide ClaimTask;
    assert RecordSide(s, b, t);
    assert WorkSide(s, b, t);
    assert DoneSide(s, b, t);
  }

  lemma TakenLeases(s: Sys, i: AgentId, seconds: nat)
    requires CanTake(s, i, seconds) && Known(s, s.agents[i])
    ensures Known(s, Took(s, i, seconds).agents[i])
  {
    ClaimTaskTakes(s.agents[i].store, i, s.now, seconds);
    hide ClaimTask;
  }

  lemma TakenSide(s: Sys, i: AgentId, seconds: nat)
    requires CanTake(s, i, seconds) && Side(s, s.agents[i])
    ensures Side(s, Took(s, i, seconds).agents[i])
  {
    var a, b := s.agents[i], Took(s, i, seconds).agents[i];
    TakenLeases(s, i, seconds);
    ClaimTaskTakes(a.store, i, s.now, seconds);
    forall j | 0 <= j < |s.crm.run.tasks| ensures TaskInv(s, b, s.crm.run.tasks[j]) {
      TakenTask(s, i, seconds, s.crm.run.tasks[j]);
    }
    hide TaskInv, Outstanding, ClaimTask, Known;
    assert SameTaskEvents(a.store, b.store);
    SameOne(s, a, b);
  }

  /** The running event was accepted before the search starts. */
  lemma SearchBegins(s: Sys, i: AgentId, t: ClaimedTask)
    requires i in s.agents && Keys.AgentInv(s, i, s.agents[i]) && Keys.Common(s) && Drained(s.agents[i].store)
    requires s.agents[i].pc.Session? && s.agents[i].pc.phase.Draining? && s.agents[i].pc.phase.next.ToSearch?
    requires t in s.crm.run.tasks && t.id == s.agents[i].pc.phase.next.exec.task
    ensures EventKey(s.rid, s.agents[i].pc.phase.next.exec.event) in s.crm.idem
    ensures s.agents[i].pc.phase.next.exec.attempt <= t.attempts
  {
    var a, x := s.agents[i], s.agents[i].pc.phase.next.exec;
    assert Keys.Waiting(s, a.store, a.pc.token, x);
    assert !Queued(a.store, EventKey(s.rid, x.event));
    assert Keys.ReservedAs(s, x);
    var j :| 0 <= j < |s.crm.run.tasks| && s.crm.run.tasks[j] == t;
    assert Keys.Covers(s, s.crm.run.tasks[j].id, s.crm.run.tasks[j].attempts);
  }

  lemma NothingOutstanding(s: Sys, store: MemoryRun, k: Key)
    requires Drained(store) && Counts.DeliveredMeans(s, store)
    ensures !Outstanding(s, store, k)
  {
    assert !Queued(store, k);
  }

  lemma DrainedRest(s: Sys, i: AgentId)
    requires i in s.agents && Side(s, s.agents[i]) && Counts.DeliveredMeans(s, s.agents[i].store)
    requires DrainingTo(s.agents[i].pc) && Drained(s.agents[i].store)
    ensures var b := s.agents[i].(pc := Resumed(s.agents[i].pc));
      OneAtATime(s, b) && ClaimSide(s, b.pc) && Known(s, b)
  {
    var a := s.agents[i];
    hide TaskInv;
    forall k ensures !Outstanding(s, a.store, k) { NothingOutstanding(s, a.store, k); }
    hide Outstanding;
  }

  lemma DrainedSide(s: Sys, i: AgentId)
    requires i in s.agents && Side(s, s.agents[i]) && Keys.Inv(s) && Counts.DeliveredMeans(s, s.agents[i].store)
    requires DrainingTo(s.agents[i].pc) && Drained(s.agents[i].store)
    ensures Side(s, s.agents[i].(pc := Resumed(s.agents[i].pc)))
  {
    var a := s.agents[i];
    var b := a.(pc := Resumed(a.pc));
    DrainedRest(s, i);
    assert Keys.AgentInv(s, i, a) && Keys.Common(s);
    hide Keys.Inv, Keys.AgentInv, Keys.Common, Known, OneAtATime, TaskInv, ClaimSide, Resumed;
    forall j | 0 <= j < |s.crm.run.tasks| ensures TaskInv(s, b, s.crm.run.tasks[j]) {
      DrainedTask(s, i, s.crm.run.tasks[j]);
    }
  }

  lemma DrainedTask(s: Sys, i: AgentId, t: ClaimedTask)
    requires i in s.agents && TaskInv(s, s.agents[i], t) && Keys.AgentInv(s, i, s.agents[i]) && Keys.Common(s)
    requires DrainingTo(s.agents[i].pc) && Drained(s.agents[i].store) && t in s.crm.run.tasks
    ensures TaskInv(s, s.agents[i].(pc := Resumed(s.agents[i].pc)), t)
  {
    var a := s.agents[i];
    if a.pc.phase.next.ToSearch? && a.pc.phase.next.exec.task == t.id { SearchBegins(s, i, t); }
    hide Keys.AgentInv, Keys.Common;
    var b := a.(pc := Resumed(a.pc));
    assert RecordSide(s, b, t);
    assert WorkSide(s, b, t);
  }

  /** Attempts stay, no record comes to life, and a finished record stays as it is. */
  ghost predicate RecordsFit(a: MemoryRun, b: MemoryRun) {
    && b.tasks.Keys == a.tasks.Keys
    && forall t :: t in b.tasks ==>
         var r, r' := a.tasks[t], b.tasks[t];
         && r'.attempts == r.attempts && r'.maxAttempts == r.maxAttempts && (Keys.Live(r') ==> Keys.Live(r))
         && (r'.status == Pending ==> r.status == Pending || r.attempts < r.maxAttempts)
         && (r.status == Completed && r.owner == None ==> r' == r)
  }

  /** The worker stays where it is, goes on with the same execution, or stops claiming tasks. */
  predicate PcFits(a: Pc, b: Pc) {
    || b == a || b.Idle? || (b.Session? && !Leases.InLoop(b))
    || (a.Session? && b.Session? && a.phase.Doing? && b.phase.Doing? && a.phase.exec == b.phase.exec)
  }

  ghost predicate StillHeld(a: Agent, b: Agent) {
    forall t :: t in a.store.tasks && t in b.store.tasks && Early(b.pc, t) && Keys.Live(a.store.tasks[t]) ==> Keys.Live(b.store.tasks[t])
  }

  lemma LocalTask(s: Sys, a: Agent, b: Agent, t: ClaimedTask)
    requires TaskInv(s, a, t) && SameTaskEvents(a.store, b.store) && RecordsFit(a.store, b.store)
    requires PcFits(a.pc, b.pc) && StillHeld(a, b)
    ensures TaskInv(s, b, t)
  {
    SameMessages(s, a, b);
    assert RecordSide(s, b, t);
    assert WorkSide(s, b, t);
    assert DoneSide(s, b, t);
  }

  lemma LocalSide(s: Sys, a: Agent, b: Agent)
    requires Side(s, a) && SameTaskEvents(a.store, b.store) && RecordsFit(a.store, b.store)
    requires PcFits(a.pc, b.pc) && StillHeld(a, b)
    ensures Side(s, b)
  {
    assert ClaimSide(s, b.pc) && Known(s, b);
    hide Outstanding, Known, TaskInv, RecordsFit, ClaimSide, StillHeld;
    SameOne(s, a, b);
    hide OneAtATime, SameTaskEvents, PcFits;
    forall j | 0 <= j < |s.crm.run.tasks| ensures TaskInv(s, b, s.crm.run.tasks[j]) {
      LocalTask(s, a, b, s.crm.run.tasks[j]);
    }
  }

  /** The lease of a task being searched is never lost, so the step Abandon is never enabled. */
  lemma SearchedIsTended(i: AgentId, a: Agent)
    requires At(a.pc, Searching) && Leases.Tended(i, a)
    ensures Tends(a.store, a.pc.phase.exec.task, i)
  {
    assert Leases.WorksOn(a.pc, a.pc.phase.exec.task);
  }

  lemma WorkedFits(s: Sys, i: AgentId, step: WorkStep)
    requires WorkEnabled(s, i, step) && !step.DrainEnds? && !step.Abandon?
    ensures var a, b := s.agents[i], Worked(s.agents[i], i, s.now, step);
      SameTaskEvents(a.store, b.store) && RecordsFit(a.store, b.store) && PcFits(a.pc, b.pc) && StillHeld(a, b)
  {
    hide ClaimTask;
    if step.Pass? { PassedFits(s, i, step.seconds); }
  }

  lemma PassedFits(s: Sys, i: AgentId, seconds: nat)
    requires WorkEnabled(s, i, Pass(seconds))
    ensures var a, b := s.agents[i], Worked(s.agents[i], i, s.now, Pass(seconds));
      SameTaskEvents(a.store, b.store) && RecordsFit(a.store, b.store) && b.pc == a.pc && StillHeld(a, b)
  {
    ClaimTaskTakes(s.agents[i].store, i, s.now, seconds);
    hide ClaimTask;
  }

  lemma WorkedSide(s: Sys, i: AgentId, step: WorkStep)
    requires WorkEnabled(s, i, step) && Side(s, s.agents[i]) && Leases.Tended(i, s.agents[i]) && !step.DrainEnds?
    ensures Side(s, Worked(s.agents[i], i, s.now, step))
  {
    if At(s.agents[i].pc, Searching) { SearchedIsTended(i, s.agents[i]); }
    assert !step.Abandon?;
    WorkedFits(s, i, step);
    hide Side, WorkEnabled, Worked, Leases.Tended;
    LocalSide(s, s.agents[i], Worked(s.agents[i], i, s.now, step));
  }

  // ---------- queueing ----------

  predicate QueuesTaskEvent(step: QueueStep) { step.StartTask? || step.ReportDone? || step.ReportFailure? }

  lemma PutEvents(a: MemoryRun, b: MemoryRun, k: Key, p: Payload)
    requires b == Put(a, k, p) && !Leases.TaskEvent(p) && (p.Events? <==> k.EventKey?)
    requires k.EventKey? ==> k !in a.outbox && |p.events| == 1 && p.events[0].id == k.event && p.events[0].task == None
    ensures SameTaskEvents(a, b)
  {
  }

  lemma QueuedEvents(s: Sys, i: AgentId, step: QueueStep)
    requires QueueEnabled(s, i, step) && !QueuesTaskEvent(step)
    requires EventKey(s.rid, s.nextEvent) !in s.agents[i].store.outbox
    ensures SameTaskEvents(s.agents[i].store, AfterQueue(s, i, step).agents[i].store)
  {
    if step == Save([]) {
      EmptySaveIsQuiet(s, i);
    } else {
      QueueingPuts(s, i, step);
      hide AfterQueue, SameTaskEvents;
      PutEvents(s.agents[i].store, AfterQueue(s, i, step).agents[i].store, MessageKey(s, i, step), MessageOf(s, i, step));
    }
  }

  /** How queueing a message that is no task event moves the worker on. */
  predicate PcGoesOn(a: Pc, b: Pc) {
    || b == a || (b.Session? && !Leases.InLoop(b))
    || (At(a, Searching) && At(b, Saved) && a.phase.exec == b.phase.exec)
  }

  lemma QueuedPc(s: Sys, i: AgentId, step: QueueStep)
    requires QueueEnabled(s, i, step) && !QueuesTaskEvent(step)
    ensures PcGoesOn(s.agents[i].pc, AfterQueue(s, i, step).agents[i].pc)
    ensures AfterQueue(s, i, step).agents[i].store.tasks == s.agents[i].store.tasks
  {
  }

  lemma QueuedSame(s: Sys, i: AgentId, step: QueueStep)
    requires QueueEnabled(s, i, step) && !step.ReportDone?
    ensures SameCrm(s, AfterQueue(s, i, step))
  {
    if step == Save([]) { EmptySaveIsQuiet(s, i); } else { QueueingPuts(s, i, step); }
    QueueKeepsDone(s, i, step);
    Leases.QueueNow(s, i, step);
    hide AfterQueue, QueueEnabled;
  }

  lemma QueueKeepsDone(s: Sys, i: AgentId, step: QueueStep)
    requires QueueEnabled(s, i, step) && !step.ReportDone?
    ensures AfterQueue(s, i, step).done == s.done
  {
  }

  lemma GoesOn(a: Agent, b: Agent)
    requires b.store.tasks == a.store.tasks && PcGoesOn(a.pc, b.pc)
    ensures PcFits(a.pc, b.pc)
  {
  }

  lemma QueueSameAgents(s: Sys, i: AgentId, q: QueueStep)
    requires QueueEnabled(s, i, q)
    ensures AfterQueue(s, i, q).agents.Keys == s.agents.Keys
  {
    if q != Save([]) { QueueingPuts(s, i, q); }
  }

  lemma SameRecordsFit(a: Agent, b: Agent)
    requires b.store.tasks == a.store.tasks
    ensures RecordsFit(a.store, b.store) && StillHeld(a, b)
  {
  }

  lemma QueuedLocal(s: Sys, i: AgentId, step: QueueStep)
    requires QueueEnabled(s, i, step) && Side(s, s.agents[i]) && !QueuesTaskEvent(step)
    requires EventKey(s.rid, s.nextEvent) !in s.agents[i].store.outbox
    ensures i in AfterQueue(s, i, step).agents && Side(s, AfterQueue(s, i, step).agents[i])
  {
    hide AfterQueue, SameTaskEvents, PcFits, PcGoesOn, OneAtATime, Tasks, Known, StillHeld, RecordsFit;
    QueuedEvents(s, i, step);
    QueuedPc(s, i, step);
    QueueSameAgents(s, i, step);
    SameRecordsFit(s.agents[i], AfterQueue(s, i, step).agents[i]);
    GoesOn(s.agents[i], AfterQueue(s, i, step).agents[i]);
    hide Side;
    LocalSide(s, s.agents[i], AfterQueue(s, i, step).agents[i]);
  }

  lemma QueuedSide(s: Sys, i: AgentId, step: QueueStep)
    requires QueueEnabled(s, i, step) && Side(s, s.agents[i]) && !QueuesTaskEvent(step)
    requires EventKey(s.rid, s.nextEvent) !in s.agents[i].store.outbox && OwnKeys(s, AfterQueue(s, i, step).agents[i].store)
    ensures Side(AfterQueue(s, i, step), AfterQueue(s, i, step).agents[i])
  {
    hide Side, AfterQueue, SameCrm, OwnKeys;
    QueuedLocal(s, i, step);
    QueuedSame(s, i, step);
    SameSide(s, AfterQueue(s, i, step), AfterQueue(s, i, step).agents[i]);
  }

  /** A task event is queued when none is outstanding, under a key that is used nowhere yet. */
  ghost predicate Announces(s: Sys, s': Sys, a: Agent, b: Agent, k: Key, e: RunEvent) {
    && s'.rid == s.rid && s'.crm == s.crm && s'.now == s.now && Clear(a.pc)
    && k == EventKey(s.rid, e.id) && k !in s.crm.idem && k !in a.store.outbox && k !in a.store.dead
    && b.store == Put(a.store, k, Events([e])) && Leases.GoodEvent(e) && e.task.Some?
    && (s'.done == s.done || (e.status == Some(Completed) && s'.done == s.done[e.task.value := e.id]))
  }

  lemma AnnouncedOnly(s: Sys, s': Sys, a: Agent, b: Agent, k: Key, e: RunEvent)
    requires Announces(s, s', a, b, k, e) && OneAtATime(s, a)
    ensures forall m :: Outstanding(s', b.store, m) <==> m == k
    ensures b.store.outbox[k] == Events([e])
  {
    forall m | m != k ensures !Outstanding(s', b.store, m) { assert !Outstanding(s, a.store, m); }
  }

  lemma StartedTask(s: Sys, i: AgentId, t: ClaimedTask)
    requires i in s.agents && TaskInv(s, s.agents[i], t) && OneAtATime(s, s.agents[i]) && s.agents[i].store.dead == {}
    requires s.agents[i].pc.Session? && s.agents[i].pc.phase.Ready?
    requires EventKey(s.rid, s.nextEvent) !in s.agents[i].store.outbox && EventKey(s.rid, s.nextEvent) !in s.crm.idem
    ensures TaskInv(Started(s, i), Started(s, i).agents[i], t)
  {
    var s', a, e := Started(s, i), s.agents[i], StartedEvent(s.nextEvent, s.agents[i].pc.phase.task);
    var b := s'.agents[i];
    AnnouncedOnly(s, s', a, b, EventKey(s.rid, s.nextEvent), e);
    hide Outstanding;
    assert Messages(s', b.store, t);
    assert RecordSide(s', b, t);
    assert WorkSide(s', b, t);
    assert DoneSide(s', b, t);
  }

  lemma ReportedTask(s: Sys, i: AgentId, step: QueueStep, t: ClaimedTask)
    requires QueueEnabled(s, i, step) && (step.ReportDone? || step.ReportFailure?)
    requires TaskInv(s, s.agents[i], t) && OneAtATime(s, s.agents[i]) && Leases.Tended(i, s.agents[i])
    requires s.agents[i].store.dead == {}
    requires EventKey(s.rid, s.nextEvent) !in s.agents[i].store.outbox && EventKey(s.rid, s.nextEvent) !in s.crm.idem
    ensures TaskInv(AfterQueue(s, i, step), AfterQueue(s, i, step).agents[i], t)
  {
    var s', a := AfterQueue(s, i, step), s.agents[i];
    ReportedStep(s, i, step);
    hide AfterQueue, QueueEnabled, Leases.Tended;
    ReportAnnounced(s, s', a, s'.agents[i], step.event, t);
  }

  /** What reporting the end of an execution does. */
  ghost predicate Reports(s: Sys, s': Sys, a: Agent, b: Agent, e: RunEvent) {
    && Announces(s, s', a, b, EventKey(s.rid, s.nextEvent), e) && a.pc.Session? && a.pc.phase.Doing? && In(b.pc, Draining(ToTop))
    && e.task == Some(a.pc.phase.exec.task) && e.attempt == None
    && (a.pc.phase.stage == Finished ==>
          e.status == Some(Completed) && s'.done == s.done[a.pc.phase.exec.task := e.id]
          && a.pc.phase.exec.task in a.store.tasks && a.store.tasks[a.pc.phase.exec.task].status == Completed
          && a.store.tasks[a.pc.phase.exec.task].owner == None)
    && (a.pc.phase.stage != Finished ==>
          e.status == Some(if a.pc.phase.exec.attempt >= a.pc.phase.exec.maxAttempts then Failed else Pending) && s'.done == s.done)
  }

  lemma ReportedStep(s: Sys, i: AgentId, step: QueueStep)
    requires QueueEnabled(s, i, step) && (step.ReportDone? || step.ReportFailure?) && Leases.Tended(i, s.agents[i])
    requires EventKey(s.rid, s.nextEvent) !in s.agents[i].store.outbox && EventKey(s.rid, s.nextEvent) !in s.crm.idem
    requires s.agents[i].store.dead == {}
    ensures i in AfterQueue(s, i, step).agents && Reports(s, AfterQueue(s, i, step), s.agents[i], AfterQueue(s, i, step).agents[i], step.event)
  {
    assert step.ReportDone? ==> Leases.WorksOn(s.agents[i].pc, s.agents[i].pc.phase.exec.task);
  }

  lemma ReportAnnounced(s: Sys, s': Sys, a: Agent, b: Agent, e: RunEvent, t: ClaimedTask)
    requires Reports(s, s', a, b, e) && TaskInv(s, a, t) && OneAtATime(s, a) && a.store.dead == {}
    ensures TaskInv(s', b, t)
  {
    AnnouncedOnly(s, s', a, b, EventKey(s.rid, s.nextEvent), e);
    hide Outstanding;
    assert Messages(s', b.store, t);
    assert RecordSide(s', b, t);
    assert DoneSide(s', b, t);
  }

  /** What holds of every worker about the next event id. */
  lemma NextIsNew(s: Sys, i: AgentId)
    requires Keys.Inv(s) && i in s.agents
    ensures EventKey(s.rid, s.nextEvent) !in s.agents[i].store.outbox && EventKey(s.rid, s.nextEvent) !in s.crm.idem
    ensures EventKey(s.rid, s.nextEvent) !in s.agents[i].store.dead
  {
    assert Keys.AgentInv(s, i, s.agents[i]);
    hide Keys.Inv;
  }

  lemma AnnouncedSide(s: Sys, s': Sys, i: AgentId, a: Agent, b: Agent, k: Key, e: RunEvent)
    requires Announces(s, s', a, b, k, e) && OneAtATime(s, a) && Known(s, a)
    requires a.store.dead == {} && b.pc.Session? && b.pc.phase.Draining?
    requires if b.pc.phase.next.ToSearch?
             then a.pc.phase.Ready? && b.pc.phase.next.exec
                  == Exec(e.id, a.pc.phase.task.id, a.pc.phase.task.attempt, a.pc.phase.task.maxAttempts)
             else a.pc.phase.Doing? && (a.pc.phase.stage == Finished || a.pc.phase.stage == Failing)
    ensures OneAtATime(s', b) && ClaimSide(s', b.pc) && Known(s', b)
  {
    AnnouncedOnly(s, s', a, b, k, e);
    hide Outstanding;
  }

  lemma StartAnnounces(s: Sys, i: AgentId)
    requires i in s.agents && s.agents[i].pc.Session? && s.agents[i].pc.phase.Ready?
    requires EventKey(s.rid, s.nextEvent) !in s.agents[i].store.outbox && EventKey(s.rid, s.nextEvent) !in s.crm.idem
    requires EventKey(s.rid, s.nextEvent) !in s.agents[i].store.dead
    ensures var a, s' := s.agents[i], Started(s, i); var task := a.pc.phase.task;
      && i in s'.agents && s'.crm == s.crm
      && Announces(s, s', a, s'.agents[i], EventKey(s.rid, s.nextEvent), StartedEvent(s.nextEvent, task))
      && s'.agents[i].pc == Session(a.pc.token, Draining(ToSearch(Exec(s.nextEvent, task.id, task.attempt, task.maxAttempts))))
  {
  }

  lemma StartedSide(s: Sys, i: AgentId)
    requires i in s.agents && Side(s, s.agents[i]) && s.agents[i].pc.Session? && s.agents[i].pc.phase.Ready?
    requires Keys.Inv(s)
    ensures Side(Started(s, i), Started(s, i).agents[i])
  {
    NextIsNew(s, i);
    hide Keys.Inv, TaskInv, OneAtATime, Known, ClaimSide;
    var s', a := Started(s, i), s.agents[i];
    NotDead(s, a);
    StartAnnounces(s, i);
    hide Started, Announces;
    AnnouncedSide(s, s', i, a, s'.agents[i], EventKey(s.rid, s.nextEvent), StartedEvent(s.nextEvent, a.pc.phase.task));
    forall j | 0 <= j < |s.crm.run.tasks| ensures TaskInv(s', s'.agents[i], s'.crm.run.tasks[j]) {
      StartedTask(s, i, s.crm.run.tasks[j]);
    }
  }

  lemma NotDead(s: Sys, a: Agent)
    requires OneAtATime(s, a) && Working(a.pc)
    ensures a.store.dead == {}
  {
  }

  lemma ReportedSide(s: Sys, i: AgentId, step: QueueStep)
    requires QueueEnabled(s, i, step) && (step.ReportDone? || step.ReportFailure?)
    requires Side(s, s.agents[i]) && Keys.Inv(s) && Leases.Tended(i, s.agents[i])
    ensures Side(AfterQueue(s, i, step), AfterQueue(s, i, step).agents[i])
  {
    NextIsNew(s, i);
    hide Keys.Inv, TaskInv, OneAtATime, Known, ClaimSide;
    var s', a := AfterQueue(s, i, step), s.agents[i];
    assert a.store.dead == {} by { NotDead(s, a); }
    AnnouncedSide(s, s', i, a, s'.agents[i], EventKey(s.rid, s.nextEvent), step.event);
    forall j | 0 <= j < |s.crm.run.tasks| ensures TaskInv(s', s'.agents[i], s'.crm.run.tasks[j]) {
      ReportedTask(s, i, step, s.crm.run.tasks[j]);
    }
  }

  // ---------- submitting ----------

  /** The message may have been accepted for the first time; only then does a task event change the tasks. */
  ghost predicate Accepts(s: Sys, s': Sys, k: Key, p: Payload) {
    && s'.rid == s.rid && s'.done == s.done && s'.now == s.now && (Over(s.crm.run) ==> Over(s'.crm.run))
    && (s'.crm.idem == s.crm.idem || (k !in s.crm.idem && s'.crm.idem == s.crm.idem[k := p]))
    && s'.crm.run.tasks == (if s'.crm.idem != s.crm.idem && Leases.TaskEvent(p)
                            then ApplyEvents(s.crm.run.tasks, p.events) else s.crm.run.tasks)
  }

  /** One queued message was tried, and the worker stays where it is or stops. */
  ghost predicate Tries(s: Sys, a: Agent, b: Agent, k: Key) {
    && Queued(a.store, k) && k.Owner() == s.rid && Handled(a.store, b.store, k) && (Leases.TaskEvent(a.store.outbox[k]) ==> k.EventKey?)
    && (b.pc == a.pc || b.pc.Idle? || (b.pc.Session? && b.pc.phase == Closing))
    && (b.pc == a.pc && Working(a.pc) ==> b.store.dead == a.store.dead)
    && (a.pc.Idle? || DrainingTo(a.pc))
  }

  ghost predicate Lands(s: Sys, s': Sys, a: Agent, b: Agent, k: Key) {
    Tries(s, a, b, k) && Accepts(s, s', k, a.store.outbox[k])
  }

  predicate Sound(r: RunId, k: Key, p: Payload) {
    && k.Owner() == r && (p.Events? ==> k.EventKey? && |p.events| == 1) && (p.Terminal() ==> k.TerminalKey?)
    && (p.Complete? ==> Ends.FinalStatus(p.report.status))
  }

  lemma SubmitLands(crm: Crm, token: Token, now: nat, k: Key, p: Payload)
    requires p.Events? ==> |p.events| == 1
    requires p.Complete? ==> Ends.FinalStatus(p.report.status)
    ensures var after := Submit(crm, token, now, k, p).0;
      && (Over(crm.run) ==> Over(after.run))
      && (after.idem == crm.idem || (k !in crm.idem && after.idem == crm.idem[k := p]))
      && after.run.tasks == (if after.idem != crm.idem && Leases.TaskEvent(p) then ApplyEvents(crm.run.tasks, p.events) else crm.run.tasks)
  {
    if p.Events? && !Leases.TaskEvent(p) {
      assert p.events[..0] == [] && ApplyEvents(crm.run.tasks, []) == crm.run.tasks;
      AppliedNowhere(crm.run.tasks, p.events[0]);
    }
  }

  lemma MessageShape(s: Sys, i: AgentId, k: Key)
    requires Ends.Inv(s) && i in s.agents && k in s.agents[i].store.outbox && Leases.Shaped(s.agents[i].store)
    ensures Sound(s.rid, k, s.agents[i].store.outbox[k])
  {
    assert Counts.AgentCounts(s, s.agents[i]);
    assert Counts.Proper(s.rid, s.written, k, s.agents[i].store.outbox[k]);
    assert Ends.FinalReports(s.agents[i].store.outbox);
    hide Keys.Inv, Ends.EndsOnce, Ends.FinalizedMeans;
  }

  /** What a submitted message does to the CRM's tasks and keys. */
  lemma LoggedAccepts(s: Sys, s': Sys, i: AgentId, k: Key, token: Token)
    requires i in s.agents && k in s.agents[i].store.outbox && Logs(s, s', i, k, token)
    requires Sound(s.rid, k, s.agents[i].store.outbox[k]) && s'.done == s.done && s'.now == s.now
    ensures Accepts(s, s', k, s.agents[i].store.outbox[k])
  {
    SubmitLands(s.crm, token, s.now, k, s.agents[i].store.outbox[k]);
    hide Submit, Handled;
  }

  lemma DeliverAccepts(s: Sys, i: AgentId, k: Key, channel: Channel)
    requires CanDeliver(s, i, k) && Sound(s.rid, k, s.agents[i].store.outbox[k])
    ensures Accepts(s, Delivered(s, i, k, channel), k, s.agents[i].store.outbox[k])
  {
    DeliveringLogs(s, i, k, channel);
    assert Delivered(s, i, k, channel).done == s.done && Delivered(s, i, k, channel).now == s.now;
    hide Delivered, Logs, Sound, Accepts;
    LoggedAccepts(s, Delivered(s, i, k, channel), i, k, s.agents[i].pc.token);
  }

  lemma ReplayAccepts(s: Sys, i: AgentId, k: Key, channel: Channel)
    requires CanReplay(s, i, k) && Sound(s.rid, k, s.agents[i].store.outbox[k])
    ensures Accepts(s, Replayed(s, i, k, channel), k, s.agents[i].store.outbox[k])
  {
    ReplayingLogs(s, i, k, channel);
    assert Replayed(s, i, k, channel).done == s.done && Replayed(s, i, k, channel).now == s.now;
    hide Replayed, Logs, Sound, Accepts;
    LoggedAccepts(s, Replayed(s, i, k, channel), i, k, s.agents[i].store.token.value);
  }

  lemma DeliverTries(s: Sys, i: AgentId, k: Key, channel: Channel)
    requires CanDeliver(s, i, k) && Leases.Shaped(s.agents[i].store) && k.Owner() == s.rid
    ensures Tries(s, s.agents[i], Delivered(s, i, k, channel).agents[i], k)
  {
    var a, p := s.agents[i], s.agents[i].store.outbox[k];
    DeliveryHandles(s.crm, a.store, a.pc.token, s.now, k, channel, s.refuses(p));
    hide Submit, StoreAfter, Handled, CrmAfter, Reserves, Finalizes, Logged;
  }

  lemma ReplayTries(s: Sys, i: AgentId, k: Key, channel: Channel)
    requires CanReplay(s, i, k) && k.Owner() == s.rid
    ensures Tries(s, s.agents[i], Replayed(s, i, k, channel).agents[i], k)
  {
    var a, p := s.agents[i], s.agents[i].store.outbox[k];
    ReplayHandles(s.crm, a.store, s.now, k, channel, s.refuses(p));
    hide Submit, StoreAfterReplay, Handled, CrmAfter;
  }

  lemma LandedEvents(s: Sys, s': Sys, a: Agent, b: Agent, k: Key)
    requires Lands(s, s', a, b, k)
    ensures forall m :: Outstanding(s', b.store, m) ==>
              Outstanding(s, a.store, m) && b.store.outbox[m] == a.store.outbox[m] && (s'.crm.idem != s.crm.idem ==> m != k)
    ensures a.store.dead <= b.store.dead
  {
  }

  /** The execution waiting to search announces itself with a running event. */
  ghost predicate WaitsWith(s: Sys, a: Agent) {
    Working(a.pc) && a.pc.phase.Draining? ==>
      var x := a.pc.phase.next.exec;
      EventKey(s.rid, x.event) in a.store.outbox && a.store.outbox[EventKey(s.rid, x.event)] == Events([Keys.RunningEvent(x)])
  }

  /** A task that the message is not about. */
  lemma BystanderTask(s: Sys, s': Sys, a: Agent, b: Agent, k: Key, t: ClaimedTask)
    requires Lands(s, s', a, b, k) && TaskInv(s, a, t) && WaitsWith(s, a)
    requires s'.crm.idem == s.crm.idem || !About(a.store.outbox[k], t.id)
    ensures TaskInv(s', b, t)
  {
    LandedEvents(s, s', a, b, k);
    hide Outstanding;
    assert Messages(s', b.store, t);
    assert RecordSide(s', b, t);
    assert WorkSide(s', b, t);
    assert DoneSide(s', b, t);
  }

  /** The task that an accepted event is about. */
  lemma SubjectTask(s: Sys, s': Sys, a: Agent, b: Agent, k: Key, t: ClaimedTask)
    requires Lands(s, s', a, b, k) && TaskInv(s, a, t) && OneAtATime(s, a) && Leases.Shaped(a.store) && WaitsWith(s, a)
    requires s'.crm.idem != s.crm.idem && About(a.store.outbox[k], t.id)
    ensures TaskInv(s', b, Progress(t, a.store.outbox[k].events[0]))
  {
    var t' := Progress(t, a.store.outbox[k].events[0]);
    LandedEvents(s, s', a, b, k);
    assert Outstanding(s, a.store, k);
    assert Allows(s, t, k, a.store.outbox[k].events[0]);
    forall m ensures !Outstanding(s', b.store, m) {}
    hide Outstanding;
    assert CrmSide(s'.crm.run, t');
    assert RecordSide(s', b, t');
    assert WorkSide(s', b, t');
    assert DoneSide(s', b, t');
  }

  lemma LandedTask(s: Sys, s': Sys, a: Agent, b: Agent, k: Key, j: nat)
    requires Lands(s, s', a, b, k) && OneAtATime(s, a) && Leases.Shaped(a.store) && WaitsWith(s, a)
    requires DistinctIds(s.crm.run.tasks) && j < |s.crm.run.tasks| && TaskInv(s, a, s.crm.run.tasks[j])
    ensures |s'.crm.run.tasks| == |s.crm.run.tasks| && TaskInv(s', b, s'.crm.run.tasks[j])
    ensures s'.crm.run.tasks[j].id == s.crm.run.tasks[j].id
  {
    var t, p := s.crm.run.tasks[j], a.store.outbox[k];
    hide TaskInv, OneAtATime, WaitsWith, Tries;
    if s'.crm.idem != s.crm.idem && Leases.TaskEvent(p) {
      assert p.events == [p.events[0]];
      ApplyEventExact(s.crm.run.tasks, p.events[0]);
      if About(p, t.id) { SubjectTask(s, s', a, b, k, t); } else { BystanderTask(s, s', a, b, k, t); }
    } else {
      BystanderTask(s, s', a, b, k, t);
    }
  }

  lemma LandedRest(s: Sys, s': Sys, a: Agent, b: Agent, k: Key)
    requires Lands(s, s', a, b, k) && OneAtATime(s, a)
    ensures OneAtATime(s', b) && ClaimSide(s', b.pc)
  {
    LandedEvents(s, s', a, b, k);
    hide Outstanding;
  }

  lemma LandedKnown(s: Sys, s': Sys, a: Agent, b: Agent, k: Key)
    requires Lands(s, s', a, b, k) && Known(s, a) && |s'.crm.run.tasks| == |s.crm.run.tasks|
    requires forall j :: 0 <= j < |s.crm.run.tasks| ==> s'.crm.run.tasks[j].id == s.crm.run.tasks[j].id
    ensures Known(s', b)
  {
    forall t | Listed(s.crm.run.tasks, t) ensures Listed(s'.crm.run.tasks, t) {
      var j :| 0 <= j < |s.crm.run.tasks| && s.crm.run.tasks[j].id == t;
      assert s'.crm.run.tasks[j].id == t;
    }
  }

  lemma LandedSide(s: Sys, s': Sys, a: Agent, b: Agent, k: Key)
    requires Lands(s, s', a, b, k) && Side(s, a) && Leases.Shaped(a.store) && WaitsWith(s, a) && DistinctIds(s.crm.run.tasks)
    ensures Side(s', b)
  {
    LandedRest(s, s', a, b, k);
    assert |s'.crm.run.tasks| == |s.crm.run.tasks|;
    hide Lands, TaskInv, OneAtATime, Leases.Shaped, ClaimSide, WaitsWith;
    forall j | 0 <= j < |s.crm.run.tasks|
      ensures TaskInv(s', b, s'.crm.run.tasks[j]) && s'.crm.run.tasks[j].id == s.crm.run.tasks[j].id
    {
      LandedTask(s, s', a, b, k, j);
    }
    hide Known;
    LandedKnown(s, s', a, b, k);
  }

  lemma Waits(s: Sys, i: AgentId)
    requires Keys.Inv(s) && i in s.agents
    ensures WaitsWith(s, s.agents[i]) && DistinctIds(s.crm.run.tasks)
  {
    assert Keys.AgentInv(s, i, s.agents[i]);
    hide Keys.Knows, Keys.OwnEvents;
  }

  lemma DeliverSide(s: Sys, i: AgentId, k: Key, channel: Channel)
    requires Ends.Inv(s) && CanDeliver(s, i, k) && Side(s, s.agents[i]) && Leases.Shaped(s.agents[i].store)
    ensures Side(Delivered(s, i, k, channel), Delivered(s, i, k, channel).agents[i])
  {
    MessageShape(s, i, k);
    Waits(s, i);
    DeliverAccepts(s, i, k, channel);
    DeliverTries(s, i, k, channel);
    hide Delivered, Side, Ends.Inv, Tries, Accepts;
    LandedSide(s, Delivered(s, i, k, channel), s.agents[i], Delivered(s, i, k, channel).agents[i], k);
  }

  lemma ReplaySide(s: Sys, i: AgentId, k: Key, channel: Channel)
    requires Ends.Inv(s) && CanReplay(s, i, k) && Side(s, s.agents[i]) && Leases.Shaped(s.agents[i].store)
    ensures Side(Replayed(s, i, k, channel), Replayed(s, i, k, channel).agents[i])
  {
    MessageShape(s, i, k);
    Waits(s, i);
    ReplayAccepts(s, i, k, channel);
    ReplayTries(s, i, k, channel);
    hide Replayed, Side, Ends.Inv, Tries, Accepts;
    LandedSide(s, Replayed(s, i, k, channel), s.agents[i], Replayed(s, i, k, channel).agents[i], k);
  }

  // ---------- every run ----------

  lemma LeaseStepSide(s: Sys, i: AgentId, l: LeaseStep)
    requires LeaseEnabled(s, i, l) && i in AfterLease(s, i, l).agents && Ends.Inv(s) && Side(s, s.agents[i])
    ensures Side(AfterLease(s, i, l), AfterLease(s, i, l).agents[i])
  {
    OutboxOwned(s, i);
    Waits(s, i);
    hide Ends.Inv, Side, Counts.DeliveredMeans, WaitsWith, Granting, Ensured, Took, Beaten;
    match l
    case ClaimRun(seconds) => GrantSide(s, i, seconds);
    case Ensure => EnsureStepSide(s, i);
    case TakeTask(seconds) => TakeStepSide(s, i, seconds);
    case Renew(_) => RenewedSide(s, i, l);
    case BeatRun(_) => BeatSide(s, i, l);
  }

  lemma BeatSide(s: Sys, i: AgentId, l: LeaseStep)
    requires LeaseEnabled(s, i, l) && l.BeatRun? && Side(s, s.agents[i]) && OwnKeys(s, s.agents[i].store)
    ensures Side(AfterLease(s, i, l), AfterLease(s, i, l).agents[i])
  {
    hide Side, OwnKeys;
    SameSide(s, AfterLease(s, i, l), s.agents[i]);
  }

  lemma EnsureStepSide(s: Sys, i: AgentId)
    requires i in s.agents && s.agents[i].pc.Claimed? && Side(s, s.agents[i]) && DistinctIds(s.crm.run.tasks)
    requires Counts.DeliveredMeans(s, s.agents[i].store) && OwnKeys(s, s.agents[i].store)
    ensures Side(Ensured(s, i), Ensured(s, i).agents[i])
  {
    hide Side, Counts.DeliveredMeans, EnsureRun;
    EnsuredSide(s, i);
    EnsureKeepsOutbox(s.agents[i].store, s.agents[i].pc.claim, Some(i), s.now);
    SameSide(s, Ensured(s, i), Ensured(s, i).agents[i]);
  }

  lemma TakeStepSide(s: Sys, i: AgentId, seconds: nat)
    requires CanTake(s, i, seconds) && Side(s, s.agents[i]) && OwnKeys(s, s.agents[i].store)
    ensures Side(Took(s, i, seconds), Took(s, i, seconds).agents[i])
  {
    hide Side, ClaimTask;
    TakenSide(s, i, seconds);
    ClaimTaskTakes(s.agents[i].store, i, s.now, seconds);
    SameSide(s, Took(s, i, seconds), Took(s, i, seconds).agents[i]);
  }

  lemma RenewedSide(s: Sys, i: AgentId, l: LeaseStep)
    requires LeaseEnabled(s, i, l) && l.Renew? && Side(s, s.agents[i]) && OwnKeys(s, s.agents[i].store)
    ensures Side(AfterLease(s, i, l), AfterLease(s, i, l).agents[i])
  {
    var s', b := AfterLease(s, i, l), AfterLease(s, i, l).agents[i];
    SameSide(s, s', s.agents[i]);
    forall j | 0 <= j < |s'.crm.run.tasks| ensures TaskInv(s', b, s'.crm.run.tasks[j]) {
      assert TaskInv(s', s.agents[i], s'.crm.run.tasks[j]);
    }
    hide TaskInv, Outstanding;
  }

  lemma WorkedKeeps(s: Sys, i: AgentId, w: WorkStep)
    requires Ends.Inv(s) && WorkEnabled(s, i, w) && Side(s, s.agents[i]) && Leases.Tended(i, s.agents[i])
    ensures Side(s, Worked(s.agents[i], i, s.now, w))
  {
    OutboxOwned(s, i);
    hide Ends.Inv, Side, Counts.DeliveredMeans, Leases.Tended;
    if w.DrainEnds? { DrainedSide(s, i); } else { WorkedSide(s, i, w); }
  }

  lemma WorkedFrame(s: Sys, i: AgentId, w: WorkStep)
    requires WorkEnabled(s, i, w) && OwnKeys(s, s.agents[i].store)
    ensures SameCrm(s, AfterWork(s, i, w)) && AfterWork(s, i, w).agents[i] == Worked(s.agents[i], i, s.now, w)
    ensures OwnKeys(s, Worked(s.agents[i], i, s.now, w).store)
  {
    hide ClaimTask;
    if w.Pass? { ClaimTaskTakes(s.agents[i].store, i, s.now, w.seconds); }
    assert Worked(s.agents[i], i, s.now, w).store.outbox == s.agents[i].store.outbox;
    hide Worked;
  }

  lemma WorkStepSide(s: Sys, i: AgentId, w: WorkStep)
    requires Ends.Inv(s) && WorkEnabled(s, i, w) && Side(s, s.agents[i]) && Leases.Tended(i, s.agents[i])
    ensures Side(AfterWork(s, i, w), AfterWork(s, i, w).agents[i])
  {
    OutboxOwned(s, i);
    WorkedFrame(s, i, w);
    hide Ends.Inv, Side, Worked, Counts.DeliveredMeans, AfterWork, OwnKeys, SameCrm, WorkEnabled, Leases.Tended;
    WorkedKeeps(s, i, w);
    SameSide(s, AfterWork(s, i, w), AfterWork(s, i, w).agents[i]);
  }

  lemma QueueStepSide(s: Sys, i: AgentId, q: QueueStep)
    requires QueueEnabled(s, i, q) && i in AfterQueue(s, i, q).agents && Leases.Tended(i, s.agents[i])
    requires Ends.Inv(s) && Side(s, s.agents[i]) && Ends.Inv(AfterQueue(s, i, q))
    ensures Side(AfterQueue(s, i, q), AfterQueue(s, i, q).agents[i])
  {
    NextIsNew(s, i);
    hide Ends.Inv, Side, AfterQueue, Leases.Tended;
    QueuedOwned(s, i, q);
    if q.StartTask? {
      StartedSide(s, i);
    } else if q.ReportDone? || q.ReportFailure? {
      ReportedSide(s, i, q);
    } else {
      QueuedSide(s, i, q);
    }
  }

  lemma QueuedOwned(s: Sys, i: AgentId, q: QueueStep)
    requires QueueEnabled(s, i, q) && i in AfterQueue(s, i, q).agents && Ends.Inv(AfterQueue(s, i, q))
    ensures OwnKeys(s, AfterQueue(s, i, q).agents[i].store)
  {
    Ends.QueueChanges(s, i, q);
    hide Ends.Inv, AfterQueue, QueueEnabled;
    OutboxOwned(AfterQueue(s, i, q), i);
  }

  lemma StepSameAgents(s: Sys, step: Step)
    requires Enabled(s, step)
    ensures Apply(s, step).agents.Keys == s.agents.Keys
  {
    hide AfterQueue, AfterLease, StoreAfter, StoreAfterReplay, CrmAfter;
    match step
    case World(_) =>
    case Lease(j, l) => LeaseIsQuiet(s, j, l);
    case Work(_, _) =>
    case Queue(j, q) => QueueSameAgents(s, j, q);
    case Deliver(_, _, _) =>
    case Replay(_, _, _) =>
  }

  lemma OnlyActor(s: Sys, step: Step, i: AgentId)
    requires Enabled(s, step) && s.agents.Keys == {i}
    ensures !step.World? ==> step.i == i
  {
  }

  lemma SideStays(s: Sys, step: Step, i: AgentId)
    requires Ends.Inv(s) && Enabled(s, step) && Ends.Inv(Apply(s, step)) && i in s.agents && i in Apply(s, step).agents
    requires Side(s, s.agents[i]) && Leases.Steady(s.now, i, s.agents[i]) && (step.World? || step.i == i)
    ensures Side(Apply(s, step), Apply(s, step).agents[i])
  {
    assert Leases.Tended(i, s.agents[i]) && Leases.Shaped(s.agents[i].store);
    hide Ends.Inv, Side, Leases.Steady, Leases.Tended, Leases.Shaped, WorldEnabled, LeaseEnabled, WorkEnabled, QueueEnabled, CanDeliver,
      CanReplay, AfterWorld, AfterLease, AfterWork, AfterQueue, Delivered, Replayed;
    if step.Deliver? || step.Replay? || step.Queue? {
      SubmitStepSide(s, step, i);
    } else if step.Lease? {
      LeaseStepSide(s, i, step.lease);
    } else if step.Work? {
      WorkStepSide(s, i, step.work);
    } else {
      WorldSteps(s, i, step.world);
      WorldAgents(s, step.world);
    }
  }

  lemma SubmitStepSide(s: Sys, step: Step, i: AgentId)
    requires step.Deliver? || step.Replay? || step.Queue?
    requires Ends.Inv(s) && Enabled(s, step) && Ends.Inv(Apply(s, step)) && step.i == i && i in s.agents && i in Apply(s, step).agents
    requires Side(s, s.agents[i]) && Leases.Shaped(s.agents[i].store) && Leases.Tended(i, s.agents[i])
    ensures Side(Apply(s, step), Apply(s, step).agents[i])
  {
    hide Ends.Inv, Side, Leases.Shaped, Leases.Tended, CanDeliver, CanReplay, Delivered, Replayed, QueueEnabled, AfterQueue;
    if step.Deliver? {
      DeliverSide(s, i, step.key, step.channel);
    } else if step.Replay? {
      ReplaySide(s, i, step.key, step.channel);
    } else {
      QueueStepSide(s, i, step.queue);
    }
  }

  lemma WorldAgents(s: Sys, w: WorldStep)
    requires WorldEnabled(s, w)
    ensures AfterWorld(s, w).agents == s.agents
  {
  }

  lemma StepKeeps(s: Sys, step: Step, i: AgentId)
    requires Inv(s, i) && Enabled(s, step)
    ensures Inv(Apply(s, step), i)
  {
    assert Leases.Steady(s.now, i, s.agents[i]);
    hide Ends.Inv, Leases.Inv, Leases.Steady, Side, Enabled, Apply;
    Ends.StepKeeps(s, step);
    Leases.StepKeeps(s, step);
    StepSameAgents(s, step);
    OnlyActor(s, step, i);
    SideStays(s, step, i);
  }

  lemma InitInv(s: Sys, i: AgentId)
    requires Init(s) && s.agents.Keys == {i}
    ensures Inv(s, i)
  {
    Ends.InitInv(s);
    Leases.InitInv(s);
    hide Ends.Inv, Leases.Inv;
  }

  ghost predicate InvAlone(s: Sys, i: AgentId) { s.agents.Keys == {i} ==> Inv(s, i) }

  lemma StepKeepsAlone(s: Sys, step: Step, i: AgentId)
    requires InvAlone(s, i) && Enabled(s, step)
    ensures InvAlone(Apply(s, step), i)
  {
    hide Inv, Enabled, Apply;
    StepSameAgents(s, step);
    if s.agents.Keys == {i} { StepKeeps(s, step, i); }
  }

  lemma ReachableInv(s: Sys, i: AgentId)
    requires Reachable(s) && s.agents.Keys == {i}
    ensures Inv(s, i)
  {
    hide Inv, Init, Enabled, Apply, Reachable;
    forall t | Init(t) ensures InvAlone(t, i) {
      if t.agents.Keys == {i} { InitInv(t, i); }
    }
    forall t, step | InvAlone(t, i) && Enabled(t, step) ensures InvAlone(Apply(t, step), i) { StepKeepsAlone(t, step, i); }
    ReachableKeep(t => InvAlone(t, i), s);
  }

  // ---------- the theorems ----------

  /** Once the completion event of a task is queued, whether it is undelivered, delivered or a dead letter, the
      worker is never again about to search, or searching, for that task. */
  lemma NeverSearchedAgain(s: Sys, i: AgentId, t: TaskId)
    requires Reachable(s) && s.agents.Keys == {i} && t in s.done
    ensures !Leases.WorksOn(s.agents[i].pc, t)
  {
    ReachableInv(s, i);
    hide Ends.Inv, ClaimSide, Messages, RecordSide, WorkSide;
    forall j | 0 <= j < |s.crm.run.tasks| && s.crm.run.tasks[j].id == t ensures !Leases.WorksOn(s.agents[i].pc, t) {
      assert DoneSide(s, s.agents[i], s.crm.run.tasks[j]);
    }
  }

  /** As long as nothing is a dead letter, a task whose completion was queued is completed and unowned in the store; the
      CRM has it running, or cancelled with its run, until it accepts that event, and completed afterwards. */
  lemma DoneTaskStaysDone(s: Sys, i: AgentId, t: TaskId, j: nat)
    requires Reachable(s) && s.agents.Keys == {i} && t in s.done && s.agents[i].store.dead == {}
    requires j < |s.crm.run.tasks| && s.crm.run.tasks[j].id == t
    ensures t in s.agents[i].store.tasks && s.agents[i].store.tasks[t].status == Completed && s.agents[i].store.tasks[t].owner == None
    ensures var status := s.crm.run.tasks[j].status;
      if EventKey(s.rid, s.done[t]) in s.crm.idem then status == Completed
      else status == Running || (status == Cancelled && Over(s.crm.run))
  {
    ReachableInv(s, i);
    hide Ends.Inv, Leases.Inv, ClaimSide, Messages, RecordSide, WorkSide, OneAtATime, Known, Reachable;
    assert TaskInv(s, s.agents[i], s.crm.run.tasks[j]);
  }

  /** A pending task has attempts left on the CRM and in the store. */
  lemma PendingHasAttemptsLeft(s: Sys, i: AgentId)
    requires Reachable(s) && s.agents.Keys == {i}
    ensures forall j :: 0 <= j < |s.crm.run.tasks| && s.crm.run.tasks[j].status == Pending ==>
              s.crm.run.tasks[j].attempts < s.crm.run.tasks[j].maxAttempts
    ensures forall t :: t in s.agents[i].store.tasks && s.agents[i].store.tasks[t].status == Pending ==>
              s.agents[i].store.tasks[t].attempts < s.agents[i].store.tasks[t].maxAttempts
  {
    ReachableInv(s, i);
    hide Ends.Inv, ClaimSide, Messages, DoneSide, WorkSide, OneAtATime;
    forall t | t in s.agents[i].store.tasks && s.agents[i].store.tasks[t].status == Pending
      ensures s.agents[i].store.tasks[t].attempts < s.agents[i].store.tasks[t].maxAttempts
    {
      var j :| 0 <= j < |s.crm.run.tasks| && s.crm.run.tasks[j].id == t;
      assert RecordSide(s, s.agents[i], s.crm.run.tasks[j]);
    }
    forall j | 0 <= j < |s.crm.run.tasks| && s.crm.run.tasks[j].status == Pending
      ensures s.crm.run.tasks[j].attempts < s.crm.run.tasks[j].maxAttempts
    {
      assert CrmSide(s.crm.run, s.crm.run.tasks[j]);
    }
  }
}
