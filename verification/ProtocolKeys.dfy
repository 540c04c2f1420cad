/** No two executions of a task, in any process or store, ever write candidates under one key. */
module ProtocolKeys {
  import opened Contracts
  import opened CrmSpec
  import opened CrmLaws
  import opened StoreSpec
  import opened StoreLaws
  import opened Delivery
  import opened DeliveryLaws
  import opened Protocol

  ghost predicate OwnsToken(s: Sys, i: AgentId, t: Token) { t in s.holder && s.holder[t] == i }

  ghost predicate StartedBy(s: Sys, i: AgentId, e: EventId) { e in s.starter && s.starter[e] == i }

  /** The attempts of the task are at least those of every reserved execution of it. */
  ghost predicate Covers(s: Sys, t: TaskId, attempts: nat) {
    forall e: EventId :: e in s.reserved && s.reserved[e].task == t ==> s.reserved[e].attempt <= attempts
  }

  /** No reserved execution of the task has this attempt number or a later one. */
  ghost predicate Unused(s: Sys, t: TaskId, attempt: nat) {
    forall e: EventId :: e in s.reserved && s.reserved[e].task == t ==> s.reserved[e].attempt < attempt
  }

  ghost predicate CoversAll(s: Sys, tasks: seq<ClaimedTask>) {
    forall j :: 0 <= j < |tasks| ==> Covers(s, tasks[j].id, tasks[j].attempts)
  }

  ghost predicate ReservedOnce(s: Sys) {
    && (forall e: EventId :: e in s.reserved ==> s.reserved[e].event == e && e in s.starter && EventKey(s.rid, e) in s.crm.idem)
    && (forall e: EventId, f: EventId :: e in s.reserved && f in s.reserved && e != f && s.reserved[e].task == s.reserved[f].task
          ==> s.reserved[e].attempt != s.reserved[f].attempt)
  }

  ghost predicate WritesOnce(s: Sys) {
    && (forall n :: 0 <= n < |s.writes| ==> s.writes[n].event in s.reserved && s.reserved[s.writes[n].event] == s.writes[n])
    && (forall m, n :: 0 <= m < n < |s.writes| ==> s.writes[m].event != s.writes[n].event)
  }

  ghost predicate Fresh(s: Sys) {
    && (forall t :: t in s.holder ==> t < s.nextToken)
    && (s.crm.run.lease.Some? ==> s.crm.run.lease.value.token < s.nextToken)
    && (forall e: EventId :: e in s.starter ==> e < s.nextEvent)
    && (forall e: EventId :: EventKey(s.rid, e) in s.crm.idem ==> e < s.nextEvent)
  }

  ghost predicate Common(s: Sys) {
    && DistinctIds(s.crm.run.tasks) && CoversAll(s, s.crm.run.tasks)
    && ReservedOnce(s) && WritesOnce(s) && Fresh(s)
  }

  ghost predicate OwnToken(s: Sys, i: AgentId, pc: Pc) {
    match pc
    case Idle => true
    case Claimed(claim) => OwnsToken(s, i, claim.token)
    case Session(token, _) => OwnsToken(s, i, token)
  }

  ghost predicate OwnEvents(s: Sys, i: AgentId, store: MemoryRun) {
    forall e: EventId :: EventKey(s.rid, e) in store.outbox ==> e < s.nextEvent && (e in s.starter ==> s.starter[e] == i)
  }

  /** Open, or still owned and so able to be given back. */
  predicate Live(r: TaskRecord) { r.status.Open() || r.owner.Some? }

  ghost predicate CoversOpen(s: Sys, store: MemoryRun) {
    forall t :: t in store.tasks && Live(store.tasks[t]) ==> Covers(s, t, store.tasks[t].attempts)
  }

  /** What a worker knows of the attempts, as long as its token is the current one. */
  ghost predicate Knows(s: Sys, a: Agent) {
    match a.pc
    case Idle => true
    case Claimed(claim) => Holds(s.crm.run, claim.token) ==> CoversAll(s, claim.tasks)
    case Session(token, _) => Holds(s.crm.run, token) ==> CoversOpen(s, a.store)
  }

  ghost predicate Held(s: Sys, store: MemoryRun, token: Token, t: TaskId, attempt: nat) {
    && t in store.tasks && store.tasks[t].attempts == attempt
    && (Holds(s.crm.run, token) ==> Unused(s, t, attempt))
  }

  function RunningEvent(x: Exec): RunEvent {
    RunEvent(x.event, Some(x.task), Some(Running), Some(x.attempt), None, None, None, false)
  }

  ghost predicate Unwritten(s: Sys, e: EventId) {
    forall n :: 0 <= n < |s.writes| ==> s.writes[n].event != e
  }

  ghost predicate ReservedAs(s: Sys, x: Exec) { x.event in s.reserved && s.reserved[x.event] == x }

  ghost predicate Waiting(s: Sys, store: MemoryRun, token: Token, x: Exec) {
    var k := EventKey(s.rid, x.event);
    && k in store.outbox && k !in store.dead && store.outbox[k] == Events([RunningEvent(x)])
    && (x.event in s.reserved ==> ReservedAs(s, x))
    && (x.event !in s.reserved ==> k !in s.crm.idem && k !in store.delivered && Held(s, store, token, x.task, x.attempt))
  }

  ghost predicate Underway(s: Sys, i: AgentId, store: MemoryRun, token: Token, phase: Phase) {
    match phase
    case Holding(task) => Held(s, store, token, task.id, task.attempt)
    case Ready(task) => Held(s, store, token, task.id, task.attempt)
    case Draining(next) =>
      next.ToSearch? ==>
        StartedBy(s, i, next.exec.event) && Unwritten(s, next.exec.event) && Waiting(s, store, token, next.exec)
    case Doing(x, stage) =>
      stage == Searching ==> StartedBy(s, i, x.event) && Unwritten(s, x.event) && ReservedAs(s, x)
    case _ => true
  }

  ghost predicate AgentInv(s: Sys, i: AgentId, a: Agent) {
    && OwnToken(s, i, a.pc) && OwnEvents(s, i, a.store) && Knows(s, a) && Tidy(a.store)
    && (a.pc.Session? ==> Underway(s, i, a.store, a.pc.token, a.pc.phase))
  }

  ghost predicate Inv(s: Sys) {
    Common(s) && forall i :: i in s.agents ==> AgentInv(s, i, s.agents[i])
  }

  // ---------- steps of one worker leave the others alone ----------

  /** Only worker i's token can have become current, and only its executions can be new to the history. */
  ghost predicate ActsAlone(s: Sys, s': Sys, i: AgentId) {
    && s'.rid == s.rid && s.nextEvent <= s'.nextEvent
    && (forall t :: t in s.holder ==> t in s'.holder && s'.holder[t] == s.holder[t])
    && (forall e :: e in s.starter ==> e in s'.starter && s'.starter[e] == s.starter[e])
    && (forall e :: e in s'.starter ==> e in s.starter || e >= s.nextEvent)
    && s.writes <= s'.writes
    && (forall n :: |s.writes| <= n < |s'.writes| ==> StartedBy(s, i, s'.writes[n].event))
    && (forall e :: e in s.reserved ==> e in s'.reserved && s'.reserved[e] == s.reserved[e])
    && (forall e :: e in s'.reserved && e !in s.reserved ==> StartedBy(s, i, e))
    && (forall t :: t in s.holder && s.holder[t] != i && Holds(s'.crm.run, t) ==> Holds(s.crm.run, t) && s'.reserved == s.reserved)
    && (forall e: EventId :: EventKey(s.rid, e) in s'.crm.idem && EventKey(s.rid, e) !in s.crm.idem
          ==> e in s.starter ==> s.starter[e] == i)
  }

  lemma OthersKeep(s: Sys, s': Sys, i: AgentId, j: AgentId, a: Agent)
    requires AgentInv(s, j, a) && ActsAlone(s, s', i) && j != i
    ensures AgentInv(s', j, a)
  {
    assert OwnToken(s', j, a.pc) && OwnEvents(s', j, a.store) && Knows(s', a);
  }

  ghost predicate OnlyChanges(s: Sys, s': Sys, i: AgentId)
    requires i in s.agents
  {
    s'.agents.Keys == s.agents.Keys && forall j :: j in s.agents && j != i ==> s'.agents[j] == s.agents[j]
  }

  /** It is enough to look at the worker that moved. */
  lemma Conclude(s: Sys, s': Sys, i: AgentId)
    requires Inv(s) && i in s.agents && OnlyChanges(s, s', i) && ActsAlone(s, s', i)
    requires Common(s') && AgentInv(s', i, s'.agents[i])
    ensures Inv(s')
  {
    forall j | j in s'.agents ensures AgentInv(s', j, s'.agents[j]) {
      if j != i { OthersKeep(s, s', i, j, s.agents[j]); }
    }
  }

  // ---------- the world ----------

  lemma WorldKeeps(s: Sys, s': Sys, j: AgentId, a: Agent)
    requires s' == s.(now := s'.now, crm := s'.crm) && AgentInv(s, j, a)
    requires s'.crm.run.lease == s.crm.run.lease
    requires forall e: EventId :: EventKey(s.rid, e) in s'.crm.idem ==> EventKey(s.rid, e) in s.crm.idem
    ensures AgentInv(s', j, a)
  {
    assert OwnToken(s', j, a.pc) && OwnEvents(s', j, a.store) && Knows(s', a);
  }

  lemma WorldSteps(s: Sys, s': Sys)
    requires Inv(s) && s' == s.(now := s'.now, crm := s'.crm)
    requires s'.crm.run.lease == s.crm.run.lease && Grows(s.rid, s.crm, s'.crm)
    requires forall k :: k in s'.crm.idem && k.Owner() == s.rid ==> k in s.crm.idem
    ensures Inv(s')
  {
    forall j | 0 <= j < |s'.crm.run.tasks| ensures Covers(s', s'.crm.run.tasks[j].id, s'.crm.run.tasks[j].attempts) {
      assert Covers(s, s.crm.run.tasks[j].id, s.crm.run.tasks[j].attempts);
    }
    forall e | e in s'.reserved ensures EventKey(s.rid, e) in s'.crm.idem { assert EventKey(s.rid, e).Owner() == s.rid; }
    forall e: EventId | EventKey(s.rid, e) in s'.crm.idem ensures EventKey(s.rid, e) in s.crm.idem {
      assert EventKey(s.rid, e).Owner() == s.rid;
    }
    assert Common(s');
    forall j | j in s'.agents ensures AgentInv(s', j, s'.agents[j]) { WorldKeeps(s, s', j, s.agents[j]); }
  }

  lemma GrantCommon(s: Sys, i: AgentId, seconds: nat)
    requires Inv(s) && i in s.agents
    ensures Common(Granting(s, i, seconds))
  {
    var s' := Granting(s, i, seconds);
    assert s'.crm.run.tasks == s.crm.run.tasks && s'.reserved == s.reserved && s'.writes == s.writes;
    forall j | 0 <= j < |s'.crm.run.tasks| ensures Covers(s', s'.crm.run.tasks[j].id, s'.crm.run.tasks[j].attempts) {
      assert Covers(s, s.crm.run.tasks[j].id, s.crm.run.tasks[j].attempts);
    }
  }

  lemma GrantAlone(s: Sys, i: AgentId, seconds: nat)
    requires Fresh(s) && i in s.agents
    ensures ActsAlone(s, Granting(s, i, seconds), i) && OnlyChanges(s, Granting(s, i, seconds), i)
  {
    assert s.nextToken !in s.holder;
  }

  lemma GrantOwn(s: Sys, i: AgentId, seconds: nat)
    requires i in s.agents && AgentInv(s, i, s.agents[i]) && CoversAll(s, s.crm.run.tasks)
    ensures AgentInv(Granting(s, i, seconds), i, Granting(s, i, seconds).agents[i])
  {
    var s' := Granting(s, i, seconds);
    forall j | 0 <= j < |s.crm.run.tasks| ensures Covers(s', s.crm.run.tasks[j].id, s.crm.run.tasks[j].attempts) {
      assert Covers(s, s.crm.run.tasks[j].id, s.crm.run.tasks[j].attempts);
    }
  }

  lemma GrantStep(s: Sys, i: AgentId, seconds: nat)
    requires Inv(s) && i in s.agents
    ensures Inv(Granting(s, i, seconds))
  {
    GrantCommon(s, i, seconds);
    GrantAlone(s, i, seconds);
    GrantOwn(s, i, seconds);
    Conclude(s, Granting(s, i, seconds), i);
  }

  lemma EnsuredCovers(s: Sys, store: MemoryRun, claim: Claim, i: AgentId, now: nat)
    requires CoversAll(s, claim.tasks)
    ensures CoversOpen(s, EnsureRun(store, claim, Some(i), now))
  {
    var after := EnsureRun(store, claim, Some(i), now);
    forall t | t in after.tasks && Live(after.tasks[t]) ensures Covers(s, t, after.tasks[t].attempts) {
      EnsureUnowned(store, claim, Some(i), now, t);
      var j := EnsureOpens(store, claim, Some(i), now, t);
      assert Covers(s, claim.tasks[j].id, claim.tasks[j].attempts);
    }
  }

  // ---------- steps that leave the CRM alone ----------

  /** The history that AgentInv reads is the same. */
  ghost predicate SameHistory(s: Sys, s': Sys) {
    && s'.rid == s.rid && s'.crm == s.crm && s'.holder == s.holder && s'.starter == s.starter
    && s'.reserved == s.reserved && s'.writes == s.writes && s'.nextToken == s.nextToken && s.nextEvent <= s'.nextEvent
  }

  lemma SameCommon(s: Sys, s': Sys)
    requires Common(s) && SameHistory(s, s')
    ensures Common(s')
  {
    forall j | 0 <= j < |s'.crm.run.tasks| ensures Covers(s', s'.crm.run.tasks[j].id, s'.crm.run.tasks[j].attempts) {
      assert Covers(s, s.crm.run.tasks[j].id, s.crm.run.tasks[j].attempts);
    }
  }

  lemma SameAgent(s: Sys, s': Sys, i: AgentId, a: Agent)
    requires AgentInv(s, i, a) && SameHistory(s, s')
    ensures AgentInv(s', i, a)
  {
    assert OwnToken(s', i, a.pc) && OwnEvents(s', i, a.store) && Knows(s', a);
  }

  lemma LocalStep(s: Sys, s': Sys, i: AgentId)
    requires Inv(s) && i in s.agents && OnlyChanges(s, s', i) && SameHistory(s, s')
    requires AgentInv(s', i, s'.agents[i])
    ensures Inv(s')
  {
    SameCommon(s, s');
    forall j | j in s'.agents ensures AgentInv(s', j, s'.agents[j]) {
      if j != i { SameAgent(s, s', j, s.agents[j]); }
    }
  }

  lemma LocalMove(s: Sys, s': Sys, i: AgentId, a: Agent)
    requires Inv(s) && i in s.agents && s' == With(s, i, a.store, a.pc) && AgentInv(s, i, a)
    ensures Inv(s')
  {
    SameAgent(s, s', i, a);
    LocalStep(s, s', i);
  }

  lemma EnsureStep(s: Sys, i: AgentId)
    requires Inv(s) && i in s.agents && s.agents[i].pc.Claimed?
    ensures Inv(Ensured(s, i))
  {
    var a, b := s.agents[i], Ensured(s, i).agents[i];
    EnsureKeepsOutbox(a.store, a.pc.claim, Some(i), s.now);
    if Holds(s.crm.run, a.pc.claim.token) { EnsuredCovers(s, a.store, a.pc.claim, i, s.now); }
    assert AgentInv(s, i, b);
    LocalMove(s, Ensured(s, i), i, b);
  }

  lemma DrainOwn(s: Sys, i: AgentId, a: Agent)
    requires AgentInv(s, i, a) && DrainingTo(a.pc) && Drained(a.store)
    ensures AgentInv(s, i, a.(pc := Resumed(a.pc)))
  {
    if a.pc.phase.next.ToSearch? {
      assert !Queued(a.store, EventKey(s.rid, a.pc.phase.next.exec.event));
    }
  }

  /** Phases that promise nothing can be entered from any phase of the same session. */
  lemma PhaseOwn(s: Sys, i: AgentId, a: Agent, pc: Pc)
    requires AgentInv(s, i, a)
    requires pc.Idle? || (a.pc.Session? && pc.Session? && pc.token == a.pc.token
                          && (pc.phase.Closing? || (pc.phase.Doing? && pc.phase.stage != Searching)
                              || pc.phase == Draining(ToTop) || pc.phase == Draining(ToExit)))
    ensures AgentInv(s, i, a.(pc := pc))
  {
  }

  /** Changing how a record stands, but not its attempts, is safe if it does not come back to life. */
  lemma RecordsOwn(s: Sys, i: AgentId, a: Agent, store: MemoryRun)
    requires AgentInv(s, i, a) && store == a.store.(tasks := store.tasks) && store.tasks.Keys == a.store.tasks.Keys
    requires forall t :: t in store.tasks ==> store.tasks[t].attempts == a.store.tasks[t].attempts
    requires forall t :: t in store.tasks && Live(store.tasks[t]) ==> Live(a.store.tasks[t])
    ensures AgentInv(s, i, a.(store := store))
  {
  }

  lemma TakeStep(s: Sys, i: AgentId, seconds: nat)
    requires Inv(s) && CanTake(s, i, seconds)
    ensures Inv(Took(s, i, seconds))
  {
    var a, b := s.agents[i], Took(s, i, seconds).agents[i];
    ClaimTaskTakes(a.store, i, s.now, seconds);
    var t := b.pc.phase.task.id;
    if Holds(s.crm.run, a.pc.token) {
      assert Covers(s, t, a.store.tasks[t].attempts);
      forall u | u in b.store.tasks && Live(b.store.tasks[u]) ensures Covers(s, u, b.store.tasks[u].attempts) {
        assert u != t ==> b.store.tasks[u] == a.store.tasks[u] && Covers(s, u, a.store.tasks[u].attempts);
      }
    }
    assert AgentInv(s, i, b);
    LocalMove(s, Took(s, i, seconds), i, b);
  }

  // ---------- saving messages ----------

  lemma PutOwn(s: Sys, i: AgentId, a: Agent, k: Key, p: Payload)
    requires AgentInv(s, i, a) && (a.pc.Session? && a.pc.phase.Draining? ==> !a.pc.phase.next.ToSearch?)
    requires !k.EventKey?
    ensures AgentInv(s, i, a.(store := Put(a.store, k, p)))
  {
  }

  lemma NoteStep(s: Sys, s': Sys, i: AgentId, e: RunEvent, pc: Pc)
    requires Inv(s) && i in s.agents && e.id == s.nextEvent && s.agents[i].pc.Session? && pc.Session?
    requires pc.token == s.agents[i].pc.token && (pc.phase == Draining(ToTop) || pc.phase.Closing?)
    requires s' == Noted(s, i, e, pc).(done := s'.done)
    ensures Inv(s')
  {
    var a, b := s.agents[i], s'.agents[i];
    PhaseOwn(s, i, a, pc);
    SameAgent(s, s', i, a.(pc := pc));
    assert OwnEvents(s', i, b.store);
    assert CoversOpen(s', a.store) ==> CoversOpen(s', b.store);
    assert AgentInv(s', i, b);
    LocalStep(s, s', i);
  }

  lemma SaveOwn(s: Sys, i: AgentId, batch: seq<Candidate>)
    requires i in s.agents && At(s.agents[i].pc, Searching) && AgentInv(s, i, s.agents[i])
    ensures AgentInv(s, i, SavedCandidates(s, i, batch).agents[i])
    ensures var x := s.agents[i].pc.phase.exec; ReservedAs(s, x) && Unwritten(s, x.event) && StartedBy(s, i, x.event)
  {
    var a := s.agents[i];
    var x := a.pc.phase.exec;
    var b := a.(pc := Session(a.pc.token, Doing(x, Saved)));
    assert Underway(s, i, a.store, a.pc.token, a.pc.phase);
    hide AgentInv;
    PhaseOwn(s, i, a, b.pc);
    PutOwn(s, i, b, CandidatesKey(s.rid, x.task, x.attempt), Candidates(batch));
  }

  lemma SaveStep(s: Sys, i: AgentId, batch: seq<Candidate>)
    requires Inv(s) && i in s.agents && At(s.agents[i].pc, Searching)
    ensures Inv(SavedCandidates(s, i, batch))
  {
    hide AgentInv, Common, ReservedAs, Unwritten, StartedBy, ActsAlone;
    var s', a := SavedCandidates(s, i, batch), s.agents[i];
    SaveOwn(s, i, batch);
    if |batch| == 0 {
      hide Inv;
      LocalMove(s, s', i, s'.agents[i]);
    } else {
      WriteHistory(s, s', i, a.pc.phase.exec);
      hide Inv;
      Conclude(s, s', i);
    }
  }

  lemma WriteHistory(s: Sys, s': Sys, i: AgentId, x: Exec)
    requires Common(s) && i in s.agents && i in s'.agents && AgentInv(s, i, s'.agents[i])
    requires ReservedAs(s, x) && Unwritten(s, x.event) && StartedBy(s, i, x.event)
    requires s' == s.(agents := s'.agents, writes := s.writes + [x], written := s'.written)
    requires s'.agents[i].pc.Session? && s'.agents[i].pc.phase == Doing(x, Saved)
    ensures Common(s') && AgentInv(s', i, s'.agents[i]) && ActsAlone(s, s', i)
  {
    forall j | 0 <= j < |s'.crm.run.tasks| ensures Covers(s', s'.crm.run.tasks[j].id, s'.crm.run.tasks[j].attempts) {
      assert Covers(s, s.crm.run.tasks[j].id, s.crm.run.tasks[j].attempts);
    }
    assert OwnEvents(s', i, s'.agents[i].store);
    assert CoversOpen(s, s'.agents[i].store) ==> CoversOpen(s', s'.agents[i].store);
  }

  lemma StartOwn(s: Sys, i: AgentId)
    requires Common(s) && i in s.agents && AgentInv(s, i, s.agents[i])
    requires s.agents[i].pc.Session? && s.agents[i].pc.phase.Ready?
    ensures AgentInv(Started(s, i), i, Started(s, i).agents[i])
  {
    var s', a := Started(s, i), s.agents[i];
    var k := EventKey(s.rid, s.nextEvent);
    assert k !in a.store.outbox && k !in s.crm.idem && s.nextEvent !in s.reserved;
    forall n | 0 <= n < |s.writes| ensures s.writes[n].event != s.nextEvent {
      assert s.writes[n].event in s.reserved;
    }
    assert OwnEvents(s', i, s'.agents[i].store);
    assert CoversOpen(s, a.store) ==> CoversOpen(s', s'.agents[i].store);
    assert Held(s, a.store, a.pc.token, a.pc.phase.task.id, a.pc.phase.task.attempt);
  }

  lemma StartCommon(s: Sys, i: AgentId)
    requires Common(s) && i in s.agents && s.agents[i].pc.Session? && s.agents[i].pc.phase.Ready?
    ensures Common(Started(s, i)) && ActsAlone(s, Started(s, i), i)
  {
    var s' := Started(s, i);
    forall j | 0 <= j < |s'.crm.run.tasks| ensures Covers(s', s'.crm.run.tasks[j].id, s'.crm.run.tasks[j].attempts) {
      assert Covers(s, s.crm.run.tasks[j].id, s.crm.run.tasks[j].attempts);
    }
  }

  lemma StartStep(s: Sys, i: AgentId)
    requires Inv(s) && i in s.agents && s.agents[i].pc.Session? && s.agents[i].pc.phase.Ready?
    ensures Inv(Started(s, i))
  {
    StartOwn(s, i);
    StartCommon(s, i);
    Conclude(s, Started(s, i), i);
  }

  // ---------- delivering ----------

  /** What a delivery does to the parts of the state that `Common` reads. */
  ghost predicate Received(s: Sys, s': Sys, k: Key, p: Payload) {
    && s' == s.(agents := s'.agents, crm := s'.crm, log := s'.log, reserved := s'.reserved, finalized := s'.finalized)
    && (s'.crm == s.crm || (k !in s.crm.idem && s'.crm.idem == s.crm.idem[k := p]
                            && (s'.crm.run.lease == s.crm.run.lease || s'.crm.run.lease == None)))
    && Grows(s.rid, s.crm, s'.crm)
  }

  /** An accepted running event leaves the CRM with at least its attempt. */
  lemma RunningEventCovers(s: Sys, s': Sys, x: Exec)
    requires DistinctIds(s.crm.run.tasks) && CoversAll(s, s.crm.run.tasks) && Grows(s.rid, s.crm, s'.crm)
    requires s'.crm.run.tasks == ApplyEvents(s.crm.run.tasks, [RunningEvent(x)])
    requires s'.reserved == s.reserved[x.event := x]
    ensures CoversAll(s', s'.crm.run.tasks)
  {
    ApplyEventExact(s.crm.run.tasks, RunningEvent(x));
    forall j | 0 <= j < |s'.crm.run.tasks| ensures Covers(s', s'.crm.run.tasks[j].id, s'.crm.run.tasks[j].attempts) {
      assert Covers(s, s.crm.run.tasks[j].id, s.crm.run.tasks[j].attempts);
    }
  }

  lemma PlainCommon(s: Sys, s': Sys, k: Key, p: Payload)
    requires Common(s) && Received(s, s', k, p) && s'.reserved == s.reserved
    requires k.EventKey? && k.run == s.rid ==> k.event < s.nextEvent
    ensures Common(s')
  {
    forall j | 0 <= j < |s'.crm.run.tasks| ensures Covers(s', s'.crm.run.tasks[j].id, s'.crm.run.tasks[j].attempts) {
      assert Covers(s, s.crm.run.tasks[j].id, s.crm.run.tasks[j].attempts);
    }
  }

  lemma ReservingCommon(s: Sys, s': Sys, k: Key, p: Payload, x: Exec)
    requires Common(s) && Received(s, s', k, p) && s'.reserved == s.reserved[x.event := x]
    requires k == EventKey(s.rid, x.event) && k !in s.crm.idem && k in s'.crm.idem && x.event in s.starter
    requires Unused(s, x.task, x.attempt) && x.event !in s.reserved
    requires s'.crm.run.tasks == ApplyEvents(s.crm.run.tasks, [RunningEvent(x)])
    ensures Common(s')
  {
    RunningEventCovers(s, s', x);
  }

  lemma DeliveryAlone(s: Sys, s': Sys, i: AgentId, k: Key, p: Payload, token: Token, x: Exec)
    requires Received(s, s', k, p) && OwnsToken(s, i, token)
    requires k.EventKey? && k.run == s.rid && k.event in s.starter ==> s.starter[k.event] == i
    requires s'.reserved == s.reserved
      || (s'.reserved == s.reserved[x.event := x] && StartedBy(s, i, x.event) && x.event !in s.reserved
          && Holds(s.crm.run, token))
    ensures ActsAlone(s, s', i)
  {
  }

  /** The worker's own knowledge survives: a newly reserved execution is one it holds. */
  lemma DeliveryKnows(s: Sys, s': Sys, store: MemoryRun, after: MemoryRun, k: Key, p: Payload, token: Token, x: Exec)
    requires Received(s, s', k, p) && after.tasks == store.tasks
    requires Holds(s.crm.run, token) ==> CoversOpen(s, store)
    requires s'.reserved == s.reserved
      || (s'.reserved == s.reserved[x.event := x] && Held(s, store, token, x.task, x.attempt))
    ensures Holds(s'.crm.run, token) ==> CoversOpen(s', after)
  {
  }

  lemma DeliveryEvents(s: Sys, s': Sys, i: AgentId, store: MemoryRun, after: MemoryRun, k: Key, p: Payload)
    requires Received(s, s', k, p) && Handled(store, after, k) && OwnEvents(s, i, store)
    ensures OwnEvents(s', i, after)
  {
  }

  /** Still waiting to search: the running event is either reserved now or untouched. */
  lemma DeliveryWaits(s: Sys, s': Sys, store: MemoryRun, after: MemoryRun, k: Key, p: Payload, token: Token, x: Exec)
    requires Received(s, s', k, p) && Handled(store, after, k) && Waiting(s, store, token, x) && after.dead <= store.dead
    requires k == EventKey(s.rid, x.event) ==> k in s'.crm.idem
    requires s'.reserved == if k == EventKey(s.rid, x.event) && k !in s.crm.idem then s.reserved[x.event := x] else s.reserved
    ensures Waiting(s', after, token, x)
  {
    var r := EventKey(s.rid, x.event);
    if x.event !in s'.reserved {
      assert k != r;
      assert Held(s, store, token, x.task, x.attempt);
      assert Held(s', after, token, x.task, x.attempt);
    }
  }

  lemma DeliverReceives(s: Sys, i: AgentId, k: Key, channel: Channel)
    requires CanDeliver(s, i, k)
    ensures Received(s, Delivered(s, i, k, channel), k, s.agents[i].store.outbox[k])
  {
    var a := s.agents[i];
    var p := a.store.outbox[k];
    CrmAfterCases(s.crm, a.pc.token, s.now, k, p, channel, s.refuses(p));
    SubmitGrows(s.rid, s.crm, a.pc.token, s.now, k, p);
  }

  /** A reservation: the message is the running event and the CRM has just accepted it under this token. */
  lemma DeliverReserves(s: Sys, i: AgentId, k: Key, channel: Channel, x: Exec)
    requires CanDeliver(s, i, k) && s.agents[i].pc.phase.next == ToSearch(x)
    requires Waiting(s, s.agents[i].store, s.agents[i].pc.token, x) && ReservedOnce(s)
    requires Reserves(s, Delivered(s, i, k, channel).crm, s.agents[i].pc, k)
    ensures x.event !in s.reserved && Held(s, s.agents[i].store, s.agents[i].pc.token, x.task, x.attempt)
    ensures Holds(s.crm.run, s.agents[i].pc.token)
    ensures Delivered(s, i, k, channel).crm.run.tasks == ApplyEvents(s.crm.run.tasks, [RunningEvent(x)])
    ensures Delivered(s, i, k, channel).reserved == s.reserved[x.event := x]
  {
    var a := s.agents[i];
    CrmAfterCases(s.crm, a.pc.token, s.now, k, a.store.outbox[k], channel, s.refuses(a.store.outbox[k]));
  }

  lemma DeliverCommon(s: Sys, i: AgentId, k: Key, channel: Channel)
    requires Inv(s) && CanDeliver(s, i, k)
    ensures Common(Delivered(s, i, k, channel)) && ActsAlone(s, Delivered(s, i, k, channel), i)
  {
    var s', a := Delivered(s, i, k, channel), s.agents[i];
    var p := a.store.outbox[k];
    assert AgentInv(s, i, a);
    DeliverReceives(s, i, k, channel);
    if Reserves(s, s'.crm, a.pc, k) {
      var x := a.pc.phase.next.exec;
      DeliverReserves(s, i, k, channel, x);
      ReservingCommon(s, s', k, p, x);
      DeliveryAlone(s, s', i, k, p, a.pc.token, x);
    } else {
      PlainCommon(s, s', k, p);
      DeliveryAlone(s, s', i, k, p, a.pc.token, Exec(0, 0, 0, 0));
    }
  }

  /** Where a delivery leaves the worker, and what it reserves. */
  lemma DeliverMoves(s: Sys, i: AgentId, k: Key, channel: Channel)
    requires CanDeliver(s, i, k)
    ensures var s', a := Delivered(s, i, k, channel), s.agents[i]; i in s'.agents && var b := s'.agents[i];
      && Handled(a.store, b.store, k) && s'.holder == s.holder && s'.starter == s.starter && s'.writes == s.writes
      && (b.pc == a.pc || b.pc.Idle? || b.pc == Session(a.pc.token, Closing))
      && (b.pc == a.pc ==> b.store.dead == a.store.dead && (a.store.outbox[k].Candidates? || k in s'.crm.idem))
      && s'.reserved == (if Reserves(s, s'.crm, a.pc, k) then s.reserved[a.pc.phase.next.exec.event := a.pc.phase.next.exec] else s.reserved)
  {
    hide Submit, StoreAfter, CrmAfter, Logged, Finalizes, Handled, Reserves;
    var a := s.agents[i];
    DeliveryHandles(s.crm, a.store, a.pc.token, s.now, k, channel, s.refuses(a.store.outbox[k]));
  }

  lemma DeliverOwn(s: Sys, i: AgentId, k: Key, channel: Channel)
    requires i in s.agents && AgentInv(s, i, s.agents[i]) && ReservedOnce(s) && CanDeliver(s, i, k)
    ensures AgentInv(Delivered(s, i, k, channel), i, Delivered(s, i, k, channel).agents[i])
  {
    DeliverReceives(s, i, k, channel);
    DeliverMoves(s, i, k, channel);
    hide Delivered;
    var s', a := Delivered(s, i, k, channel), s.agents[i];
    var b, p, next := s'.agents[i], a.store.outbox[k], a.pc.phase.next;
    DeliveryEvents(s, s', i, a.store, b.store, k, p);
    if next.ToSearch? {
      if Reserves(s, s'.crm, a.pc, k) { DeliverReserves(s, i, k, channel, next.exec); }
      DeliveryKnows(s, s', a.store, b.store, k, p, a.pc.token, next.exec);
      if b.pc == a.pc {
        DeliveryWaits(s, s', a.store, b.store, k, p, a.pc.token, next.exec);
      }
    } else {
      DeliveryKnows(s, s', a.store, b.store, k, p, a.pc.token, Exec(0, 0, 0, 0));
    }
  }

  lemma DeliverStep(s: Sys, i: AgentId, k: Key, channel: Channel)
    requires Inv(s) && CanDeliver(s, i, k)
    ensures Inv(Delivered(s, i, k, channel))
  {
    DeliverCommon(s, i, k, channel);
    DeliverOwn(s, i, k, channel);
    Conclude(s, Delivered(s, i, k, channel), i);
  }

  lemma ReplayReceives(s: Sys, i: AgentId, k: Key, channel: Channel)
    requires CanReplay(s, i, k)
    ensures Received(s, Replayed(s, i, k, channel), k, s.agents[i].store.outbox[k])
    ensures Replayed(s, i, k, channel).reserved == s.reserved
    ensures Handled(s.agents[i].store, Replayed(s, i, k, channel).agents[i].store, k)
  {
    var a := s.agents[i];
    var p, token := a.store.outbox[k], a.store.token.value;
    CrmAfterCases(s.crm, token, s.now, k, p, channel, s.refuses(p));
    SubmitGrows(s.rid, s.crm, token, s.now, k, p);
    ReplayHandles(s.crm, a.store, s.now, k, channel, s.refuses(p));
  }

  lemma QuietAlone(s: Sys, s': Sys, i: AgentId, k: Key, p: Payload)
    requires Received(s, s', k, p) && s'.reserved == s.reserved
    requires k.EventKey? && k.run == s.rid && k.event in s.starter ==> s.starter[k.event] == i
    ensures ActsAlone(s, s', i)
  {
  }

  lemma ReplayMoves(s: Sys, i: AgentId, k: Key, channel: Channel)
    requires CanReplay(s, i, k)
    ensures var s' := Replayed(s, i, k, channel);
      && OnlyChanges(s, s', i) && i in s'.agents && s'.agents[i].pc.Idle? && s'.holder == s.holder && s'.starter == s.starter
      && s'.writes == s.writes && s'.rid == s.rid && s'.nextEvent == s.nextEvent
  {
    hide StoreAfterReplay, CrmAfter, Logged, Finalizes;
  }

  lemma ReplayStep(s: Sys, i: AgentId, k: Key, channel: Channel)
    requires Inv(s) && CanReplay(s, i, k)
    ensures Inv(Replayed(s, i, k, channel))
  {
    var s', a := Replayed(s, i, k, channel), s.agents[i];
    var p := a.store.outbox[k];
    assert AgentInv(s, i, a) && Common(s);
    assert k.EventKey? && k.run == s.rid ==> k.event < s.nextEvent && (k.event in s.starter ==> s.starter[k.event] == i);
    ReplayReceives(s, i, k, channel);
    ReplayMoves(s, i, k, channel);
    hide Replayed, Common, Submit;
    PlainCommon(s, s', k, p);
    DeliveryEvents(s, s', i, a.store, s'.agents[i].store, k, p);
    QuietAlone(s, s', i, k, p);
    hide Received, ActsAlone;
    assert AgentInv(s', i, s'.agents[i]);
    hide AgentInv, OnlyChanges;
    Conclude(s, s', i);
  }

  lemma BeatStep(s: Sys, i: AgentId, seconds: nat, pc: Pc)
    requires Inv(s) && i in s.agents && s.agents[i].pc.Session?
    requires pc == s.agents[i].pc
      || (s.agents[i].pc.phase.Holding? && pc == Session(s.agents[i].pc.token, Ready(s.agents[i].pc.phase.task)))
    ensures Inv(Beaten(s, i, seconds, pc))
  {
    var s', a := Beaten(s, i, seconds, pc), s.agents[i];
    assert AgentInv(s, i, a.(pc := pc));
    var t := With(s, i, a.store, pc);
    LocalMove(s, t, i, a.(pc := pc));
    BeatKeeps(t, s');
  }

  lemma BeatKeeps(s: Sys, s': Sys)
    requires Inv(s) && s' == s.(crm := s'.crm) && s'.crm == s.crm.(run := s.crm.run.(lease := s'.crm.run.lease))
    requires forall t :: Holds(s'.crm.run, t) <==> Holds(s.crm.run, t)
    ensures Inv(s')
  {
    forall j | 0 <= j < |s'.crm.run.tasks| ensures Covers(s', s'.crm.run.tasks[j].id, s'.crm.run.tasks[j].attempts) {
      assert Covers(s, s.crm.run.tasks[j].id, s.crm.run.tasks[j].attempts);
    }
    assert s'.crm.run.lease.Some? ==> Holds(s.crm.run, s'.crm.run.lease.value.token);
    forall j | j in s'.agents ensures AgentInv(s', j, s'.agents[j]) { BeatAgent(s, s', j, s.agents[j]); }
  }

  lemma BeatAgent(s: Sys, s': Sys, j: AgentId, a: Agent)
    requires AgentInv(s, j, a) && s' == s.(crm := s'.crm) && s'.crm == s.crm.(run := s.crm.run.(lease := s'.crm.run.lease))
    requires forall t :: Holds(s'.crm.run, t) <==> Holds(s.crm.run, t)
    ensures AgentInv(s', j, a)
  {
    assert OwnToken(s', j, a.pc) && OwnEvents(s', j, a.store) && Knows(s', a);
  }

  // ---------- every run ----------

  lemma StoreStep(s: Sys, i: AgentId, store: MemoryRun, pc: Pc)
    requires Inv(s) && i in s.agents && s.agents[i].pc.Session? && pc.Session? && pc.token == s.agents[i].pc.token
    requires pc == s.agents[i].pc || pc.phase.Closing? || (pc.phase.Doing? && pc.phase.stage != Searching)
    requires store == s.agents[i].store.(tasks := store.tasks) && store.tasks.Keys == s.agents[i].store.tasks.Keys
    requires forall t :: t in store.tasks ==> store.tasks[t].attempts == s.agents[i].store.tasks[t].attempts
    requires forall t :: t in store.tasks && Live(store.tasks[t]) ==> Live(s.agents[i].store.tasks[t])
    ensures Inv(With(s, i, store, pc))
  {
    var a := s.agents[i];
    RecordsOwn(s, i, a, store);
    if pc != a.pc { PhaseOwn(s, i, a.(store := store), pc); }
    LocalMove(s, With(s, i, store, pc), i, Agent(store, pc));
  }

  lemma PhaseStep(s: Sys, i: AgentId, pc: Pc)
    requires Inv(s) && i in s.agents
    requires pc.Idle? || (s.agents[i].pc.Session? && pc.Session? && pc.token == s.agents[i].pc.token
                          && (pc.phase.Closing? || pc.phase == Draining(ToTop) || (pc.phase.Doing? && pc.phase.stage != Searching)))
    ensures Inv(With(s, i, s.agents[i].store, pc))
  {
    PhaseOwn(s, i, s.agents[i], pc);
    LocalMove(s, With(s, i, s.agents[i].store, pc), i, s.agents[i].(pc := pc));
  }

  lemma DrainStep(s: Sys, i: AgentId)
    requires Inv(s) && i in s.agents && DrainingTo(s.agents[i].pc) && Drained(s.agents[i].store)
    ensures Inv(With(s, i, s.agents[i].store, Resumed(s.agents[i].pc)))
  {
    var a := s.agents[i];
    DrainOwn(s, i, a);
    LocalMove(s, With(s, i, a.store, Resumed(a.pc)), i, a.(pc := Resumed(a.pc)));
  }

  lemma TerminalStep(s: Sys, i: AgentId, status: RunStatus, p: Payload)
    requires Inv(s) && CanQueueTerminal(s, i, status, p)
    ensures Inv(With(s, i, Put(s.agents[i].store, TerminalKey(s.rid, status), p), Session(s.agents[i].pc.token, Draining(ToExit))))
  {
    var a := s.agents[i];
    var store, pc := Put(a.store, TerminalKey(s.rid, status), p), Session(a.pc.token, Draining(ToExit));
    PutOwn(s, i, a, TerminalKey(s.rid, status), p);
    PhaseOwn(s, i, a.(store := store), pc);
    LocalMove(s, With(s, i, store, pc), i, Agent(store, pc));
  }

  lemma WorkSteps(s: Sys, i: AgentId, step: WorkStep)
    requires Inv(s) && WorkEnabled(s, i, step)
    ensures Inv(AfterWork(s, i, step))
  {
    hide Inv, ClaimTask;
    var a := s.agents[i];
    var b := Worked(a, i, s.now, step);
    if step.Pass? { ClaimTaskTakes(a.store, i, s.now, step.seconds); }
    if step.DrainEnds? {
      DrainStep(s, i);
    } else if step.Raise? || step.Abandon? || step.Close? || step.Leave? {
      PhaseStep(s, i, b.pc);
    } else {
      StoreStep(s, i, b.store, b.pc);
    }
  }

  lemma QueueSteps(s: Sys, i: AgentId, step: QueueStep)
    requires Inv(s) && QueueEnabled(s, i, step)
    ensures Inv(AfterQueue(s, i, step))
  {
    hide Inv;
    var pc := s.agents[i].pc;
    match step
    case StartTask => StartStep(s, i);
    case Save(batch) => SaveStep(s, i, batch);
    case ReportDone(e) => NoteStep(s, AfterQueue(s, i, step), i, e, Session(pc.token, Draining(ToTop)));
    case ReportFailure(e) => NoteStep(s, AfterQueue(s, i, step), i, e, Session(pc.token, Draining(ToTop)));
    case NoteCancel => NoteStep(s, AfterQueue(s, i, step), i, CancelNote(s.nextEvent), pc);
    case QueueTerminal(status, p) => TerminalStep(s, i, status, p);
  }

  lemma LeaseSteps(s: Sys, i: AgentId, step: LeaseStep)
    requires Inv(s) && LeaseEnabled(s, i, step)
    ensures Inv(AfterLease(s, i, step))
  {
    hide Inv;
    match step
    case ClaimRun(seconds) => GrantStep(s, i, seconds);
    case Ensure => EnsureStep(s, i);
    case TakeTask(seconds) => TakeStep(s, i, seconds);
    case Renew(seconds) => BeatStep(s, i, seconds, Session(s.agents[i].pc.token, Ready(s.agents[i].pc.phase.task)));
    case BeatRun(seconds) => BeatStep(s, i, seconds, s.agents[i].pc);
  }

  lemma WorldStepsKeep(s: Sys, step: WorldStep)
    requires Inv(s) && WorldEnabled(s, step)
    ensures Inv(AfterWorld(s, step))
  {
    WorldSteps(s, AfterWorld(s, step));
  }

  lemma StepKeeps(s: Sys, step: Step)
    requires Inv(s) && Enabled(s, step)
    ensures Inv(Apply(s, step))
  {
    hide Inv, WorldEnabled, LeaseEnabled, WorkEnabled, QueueEnabled, CanDeliver, CanReplay, AfterWorld, AfterLease,
      AfterWork, AfterQueue, Delivered, Replayed;
    match step
    case World(w) => WorldStepsKeep(s, w);
    case Lease(i, l) => LeaseSteps(s, i, l);
    case Work(i, w) => WorkSteps(s, i, w);
    case Queue(i, q) => QueueSteps(s, i, q);
    case Deliver(i, k, channel) => DeliverStep(s, i, k, channel);
    case Replay(i, k, channel) => ReplayStep(s, i, k, channel);
  }

  lemma InitInv(s: Sys)
    requires Init(s)
    ensures Inv(s)
  {
    forall e: EventId ensures EventKey(s.rid, e) !in s.crm.idem { assert EventKey(s.rid, e).Owner() == s.rid; }
  }

  lemma ReachableInv(s: Sys)
    requires Reachable(s)
    ensures Inv(s)
  {
    hide Inv, Init, Enabled, Apply, Reachable;
    forall t | Init(t) ensures Inv(t) { InitInv(t); }
    forall t, step | Inv(t) && Enabled(t, step) ensures Inv(Apply(t, step)) { StepKeeps(t, step); }
    ReachableKeep(Inv, s);
  }

  lemma KeysDiffer(s: Sys, m: nat, n: nat)
    requires Inv(s) && m < n < |s.writes|
    ensures CandidatesKey(s.rid, s.writes[m].task, s.writes[m].attempt) != CandidatesKey(s.rid, s.writes[n].task, s.writes[n].attempt)
  {
    assert s.writes[m].event in s.reserved && s.writes[n].event in s.reserved;
  }

  /** In every run, whatever is lost, delayed, re-claimed or restarted, the candidates of two different
      executions are never saved under the same (task, attempt) key. */
  lemma CandidateKeysAreUnique(s: Sys, m: nat, n: nat)
    requires Reachable(s) && m < n < |s.writes|
    ensures CandidatesKey(s.rid, s.writes[m].task, s.writes[m].attempt) != CandidatesKey(s.rid, s.writes[n].task, s.writes[n].attempt)
  {
    ReachableInv(s);
    KeysDiffer(s, m, n);
  }
}
