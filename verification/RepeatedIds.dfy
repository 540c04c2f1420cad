/** A run whose tasks repeat an id: two executions can save candidates under one key. Distinct ids are exactly what
    the uniqueness of candidates keys needs. */
module RepeatedIds {
  import opened Contracts
  import opened CrmSpec
  import opened CrmLaws
  import opened StoreSpec
  import opened StoreLaws
  import opened Delivery
  import opened DeliveryLaws
  import opened Protocol
  import opened ProtocolSteps
  import opened ProtocolSessions
  import opened TaskLoop
  import Keys = ProtocolKeys

  // ---------- which entry an event changes, and which one is loaded ----------

  /** Some earlier entry has the same id. */
  ghost predicate Repeated(tasks: seq<ClaimedTask>, j: nat)
    requires j < |tasks|
  {
    exists i :: 0 <= i < j && tasks[i].id == tasks[j].id
  }

  lemma RepeatedLater(tasks: seq<ClaimedTask>, j: nat)
    requires 0 < j < |tasks| && tasks[0].id != tasks[j].id
    ensures Repeated(tasks[1..], j - 1) <==> Repeated(tasks, j)
  {
    if Repeated(tasks, j) {
      var i :| 0 <= i < j && tasks[i].id == tasks[j].id;
      assert tasks[1..][i - 1].id == tasks[1..][j - 1].id;
    }
    if Repeated(tasks[1..], j - 1) {
      var i :| 0 <= i < j - 1 && tasks[1..][i].id == tasks[1..][j - 1].id;
      assert tasks[i + 1].id == tasks[j].id;
    }
  }

  lemma {:induction false} AppliedFirst(tasks: seq<ClaimedTask>, e: RunEvent, j: nat)
    requires j < |tasks| && e.task == Some(tasks[j].id)
    ensures ApplyEvent(tasks, e)[j] == if Repeated(tasks, j) then tasks[j] else Progress(tasks[j], e)
  {
    hide Progress;
    if tasks[0].id != tasks[j].id {
      AppliedFirst(tasks[1..], e, j - 1);
      RepeatedLater(tasks, j);
      hide Repeated;
    }
  }

  /** An accepted running event is counted by the entry that the next claim loads if and only if no earlier entry
      has the same id. */
  lemma AttemptIsCountedIffFirst(tasks: seq<ClaimedTask>, e: RunEvent, j: nat)
    requires LastOf(tasks, j) && e.task == Some(tasks[j].id) && e.attempt.Some? && e.attempt.value > tasks[j].attempts
    ensures ApplyEvent(tasks, e)[j].attempts >= e.attempt.value <==> !Repeated(tasks, j)
  {
    AppliedFirst(tasks, e, j);
  }

  // ---------- the first write ----------

  lemma BeginsPending(s: Sys, j: nat)
    requires Begins(s) && j < |s.crm.run.tasks|
    ensures s.crm.run.tasks[j].status == Pending && s.crm.run.tasks[j].attempts == 0 < s.crm.run.tasks[j].maxAttempts
  {
  }

  /** Worker i saved candidates for an execution, stopped, and its lease ran out. */
  ghost predicate Parked(s: Sys, s': Sys, i: AgentId, x: Exec, c: Candidate) {
    && s'.rid == s.rid && s'.refuses == s.refuses && OthersSame(s, s', i) && i in s'.agents && s'.agents[i].pc == Idle
    && s'.writes == [x] && Claimable(s'.crm.run, s'.now) && s'.crm.run.tasks == s.crm.run.tasks
    && s'.crm.run.maxCandidates == s.crm.run.maxCandidates && NoCandidates(s') && Fresh(s', i)
    && var store := s'.agents[i].store; var k := CandidatesKey(s.rid, x.task, x.attempt);
       && store.dead == {} && store.cap == s.crm.run.maxCandidates && store.baseline == 0 && Ordered(store)
       && k in store.outbox && store.outbox[k] == Candidates([c]) && forall m :: Queued(store, m) <==> m == k
  }

  lemma Parks(s: Sys, i: AgentId, x: Exec, c: Candidate) returns (steps: seq<Step>, s': Sys)
    requires Searches(s, i, x) && s.crm.run.status == RunRunning && NoCandidates(s) && s.writes == []
    requires s.agents[i].store.cap == s.crm.run.maxCandidates && s.agents[i].store.baseline == 0
    requires forall k :: k in s.agents[i].store.outbox ==> k.EventKey?
    ensures Runs(s, steps, s') && Parked(s, s', i, x, c)
  {
    hide Runs, SavedCandidates, Executes, Queued, Drained, NoCandidates, EventsPass;
    var t := SavedCandidates(s, i, [c]);
    QueueRuns(s, i, Save([c]));
    SavesOne(s, i, x, c);
    s' := Lapses(t, i);
    steps := [Work(i, Leave), World(Tick(t.crm.run.lease.value.expires))];
    RunsJoin(s, [Queue(i, Save([c]))], t, steps, s');
    steps := [Queue(i, Save([c]))] + steps;
    SavedParks(s, t, s', i, x, c);
  }

  lemma SavesOne(s: Sys, i: AgentId, x: Exec, c: Candidate)
    requires Searches(s, i, x)
    ensures var k, t := CandidatesKey(s.rid, x.task, x.attempt), SavedCandidates(s, i, [c]);
      t == With(s, i, Put(s.agents[i].store, k, Candidates([c])), Session(s.agents[i].pc.token, Doing(x, Saved))).(
             writes := s.writes + [x], written := t.written)
  {
  }

  lemma SavedParks(s: Sys, t: Sys, s': Sys, i: AgentId, x: Exec, c: Candidate)
    requires Searches(s, i, x) && NoCandidates(s) && s.writes == []
    requires s.agents[i].store.cap == s.crm.run.maxCandidates && s.agents[i].store.baseline == 0
    requires forall k :: k in s.agents[i].store.outbox ==> k.EventKey?
    requires t == With(s, i, Put(s.agents[i].store, CandidatesKey(s.rid, x.task, x.attempt), Candidates([c])),
                       Session(s.agents[i].pc.token, Doing(x, Saved))).(writes := s.writes + [x], written := t.written)
    requires s' == With(t, i, t.agents[i].store, Idle).(now := s'.now) && Claimable(s'.crm.run, s'.now)
    ensures Parked(s, s', i, x, c)
  {
    ParkedStore(s.agents[i].store, CandidatesKey(s.rid, x.task, x.attempt), c);
    hide Queued, Drained, EventsPass, Claimable;
  }

  lemma ParkedStore(a: MemoryRun, k: Key, c: Candidate)
    requires Tidy(a) && Drained(a) && k !in a.outbox
    ensures var b := Put(a, k, Candidates([c])); Tidy(b) && forall m :: Queued(b, m) <==> m == k
  {
    forall m | m != k ensures !Queued(Put(a, k, Candidates([c])), m) { assert !Queued(a, m); }
  }

  // ---------- the second write ----------

  /** One message was tried and marked delivered; of the CRM only the candidates and its key can have changed. */
  ghost predicate Flushed(s: Sys, s': Sys, i: AgentId, k: Key, pc: Pc) {
    && i in s.agents && OthersSame(s, s', i) && i in s'.agents && s'.agents[i].pc == pc
    && s'.rid == s.rid && s'.refuses == s.refuses && s'.now == s.now && s'.writes == s.writes && s'.nextEvent == s.nextEvent
    && FlushedRun(s.agents[i].store, s'.agents[i].store, k) && FlushedCrm(s.crm, s'.crm, k)
  }

  ghost predicate FlushedRun(a: MemoryRun, b: MemoryRun, k: Key) {
    && b.delivered == a.delivered + {k} && b.dead == {} && b.baseline <= 1 && b.outbox == a.outbox && b.tasks == a.tasks
    && b.order == a.order && b.cap == a.cap
  }

  ghost predicate FlushedCrm(a: Crm, b: Crm, k: Key) {
    && b.run == a.run.(candidates := b.run.candidates) && |b.run.candidates| <= 1
    && forall m :: m in b.idem ==> m in a.idem || m == k
  }

  lemma OneCandidate(c: Candidate, cap: nat)
    ensures |UpsertAll(map[], [c], cap).held| <= 1
  {
    assert [c][..0] == [];
    assert UpsertAll(map[], [], cap) == Upserted(map[], [], 0);
  }

  lemma FlushesCrm(crm: Crm, token: Token, now: nat, k: Key, c: Candidate, refused: bool)
    requires ValidLease(crm.run, token, now) && k !in crm.idem && crm.run.candidates == map[]
    ensures FlushedCrm(crm, CrmAfter(crm, token, now, k, Candidates([c]), Answered, refused), k)
    ensures var answer := Call(crm, token, now, k, Candidates([c]), refused).1;
      answer == Rejected || (answer.Acked? && answer.ack.found.Some? && answer.ack.found.value <= 1)
  {
    OneCandidate(c, crm.run.maxCandidates);
    hide UpsertAll;
  }

  lemma FlushesRun(crm: Crm, run: MemoryRun, token: Token, now: nat, k: Key, c: Candidate, refused: bool)
    requires Queued(run, k) && run.outbox[k] == Candidates([c]) && run.dead == {} && run.baseline == 0
    requires var answer := Call(crm, token, now, k, Candidates([c]), refused).1; answer == Rejected || (answer.Acked? && answer.ack.found.Some? && answer.ack.found.value <= 1)
    ensures var (after, more) := StoreAfter(crm, run, token, now, k, Answered, refused); more && FlushedRun(run, after, k)
  {
    hide Submit;
  }

  lemma FlushesStep(s: Sys, i: AgentId, k: Key, c: Candidate)
    requires CanDeliver(s, i, k) && ValidLease(s.crm.run, s.agents[i].pc.token, s.now) && s.agents[i].store.outbox[k] == Candidates([c])
    requires k !in s.crm.idem && s.agents[i].store.dead == {} && s.crm.run.candidates == map[] && s.agents[i].store.baseline == 0
    ensures Flushed(s, Delivered(s, i, k, Answered), i, k, s.agents[i].pc)
  {
    hide CrmAfter, StoreAfter, FlushedCrm, FlushedRun, Call, Submit, Reserves, Finalizes, Logged, ValidLease, Accepted, EventsPass;
    FlushesCrm(s.crm, s.agents[i].pc.token, s.now, k, c, s.refuses(Candidates([c])));
    FlushesRun(s.crm, s.agents[i].store, s.agents[i].pc.token, s.now, k, c, s.refuses(Candidates([c])));
    assert FlushedRun(s.agents[i].store, Delivered(s, i, k, Answered).agents[i].store, k);
  }

  lemma FlushedDrains(a: MemoryRun, b: MemoryRun, k: Key)
    requires FlushedRun(a, b, k) && (forall m :: Queued(a, m) ==> m == k) && a.dead == {}
    ensures Drained(b)
  {
    forall m ensures !Queued(b, m) { if m != k { assert !Queued(a, m); } }
  }

  /** The batch of a worker that comes back goes out, is accepted or discarded, and the loop begins. */
  lemma Flushes(s: Sys, i: AgentId, k: Key, c: Candidate) returns (s': Sys)
    requires CanDeliver(s, i, k) && ValidLease(s.crm.run, s.agents[i].pc.token, s.now) && s.agents[i].store.outbox[k] == Candidates([c])
    requires k !in s.crm.idem && s.agents[i].store.dead == {} && s.crm.run.candidates == map[] && s.agents[i].store.baseline == 0
    requires In(s.agents[i].pc, Draining(ToTop)) && forall m :: Queued(s.agents[i].store, m) ==> m == k
    ensures Runs(s, [Deliver(i, k, Answered), Work(i, DrainEnds)], s')
    ensures Flushed(s, s', i, k, Session(s.agents[i].pc.token, AtTop)) && Drained(s'.agents[i].store)
  {
    hide Runs, FlushedCrm, Queued, Drained, ValidLease;
    var t := Delivered(s, i, k, Answered);
    FlushesStep(s, i, k, c);
    RunsOne(s, Deliver(i, k, Answered));
    hide Delivered, CanDeliver;
    FlushedDrains(s.agents[i].store, t.agents[i].store, k);
    s' := Drains(t, i);
    RunsJoin(s, [Deliver(i, k, Answered)], t, [Work(i, DrainEnds)], s');
    assert [Deliver(i, k, Answered)] + [Work(i, DrainEnds)] == [Deliver(i, k, Answered), Work(i, DrainEnds)];
  }

  /** The task's last entry stands as it did at the beginning. */
  ghost predicate Untried(tasks: seq<ClaimedTask>, j: nat) {
    LastOf(tasks, j) && tasks[j].status == Pending && tasks[j].attempts == 0 < tasks[j].maxAttempts
  }

  lemma OnlyBatchQueued(run: MemoryRun, k: Key, t: TaskId)
    requires (forall m :: Queued(run, m) <==> m == k) && k in run.outbox && run.outbox[k].Candidates?
    ensures !QueuedCompletion(run, t)
  {
  }

  /** Worker i itself comes back, delivers what it had saved, and is at the top of the loop again. */
  lemma ComesBack(s: Sys, i: AgentId, j: nat, k: Key, c: Candidate) returns (s': Sys)
    requires Fresh(s, i) && EventsPass(s) && s.agents[i].pc.Idle? && Claimable(s.crm.run, s.now) && NoCandidates(s) && Untried(s.crm.run.tasks, j)
    requires s.agents[i].store.dead == {} && s.agents[i].store.baseline == 0 && s.agents[i].store.cap >= 2 && Ordered(s.agents[i].store)
    requires k in s.agents[i].store.outbox && s.agents[i].store.outbox[k] == Candidates([c]) && k !in s.crm.idem && !k.EventKey?
    requires forall m :: Queued(s.agents[i].store, m) <==> m == k
    ensures Runs(s, Opening(i, 1) + [Deliver(i, k, Answered), Work(i, DrainEnds)], s') && Loaded(s, s', i, s.crm.run.tasks[j])
  {
    hide Runs, EnsureRun, Rests, QueuedCompletion, EventsPass, Loaded;
    OnlyBatchQueued(s.agents[i].store, k, s.crm.run.tasks[j].id);
    var t := OpensWith(s, i, j, 1);
    BatchStillQueued(s.agents[i].store, t.agents[i].store, k);
    OpenedDelivers(s, t, i, k);
    s' := Flushes(t, i, k, c);
    RunsJoin(s, Opening(i, 1), t, [Deliver(i, k, Answered), Work(i, DrainEnds)], s');
    hide Opening;
    BackInOrder(s, t, s', i, k);
    BackLoaded(s, t, s', i, k, j);
  }

  lemma BackLoaded(s: Sys, t: Sys, s': Sys, i: AgentId, k: Key, j: nat)
    requires Opened(s, t, i, 1) && SameOutbox(s.agents[i].store, t.agents[i].store) && AtRest(s', i) && j < |s.crm.run.tasks|
    requires Flushed(t, s', i, k, Session(s.nextToken, AtTop)) && LoadedAs(t.agents[i].store, s.crm.run.tasks[j], s.now)
    ensures Loaded(s, s', i, s.crm.run.tasks[j])
  {
    hide EnsureRun, AtRest, SameOutbox;
    assert t.agents[i].store.outbox == s.agents[i].store.outbox && t.agents[i].store.cap == s.agents[i].store.cap by { SameOutboxMeans(s.agents[i].store, t.agents[i].store); }
  }

  lemma SameOutboxMeans(a: MemoryRun, b: MemoryRun)
    requires SameOutbox(a, b)
    ensures b.outbox == a.outbox && b.cap == a.cap
  {
  }

  lemma BatchStillQueued(a: MemoryRun, b: MemoryRun, k: Key)
    requires SameOutbox(a, b) && forall m :: Queued(a, m) <==> m == k
    ensures forall m :: Queued(b, m) <==> m == k
  {
    forall m ensures Queued(b, m) <==> Queued(a, m) {}
  }

  lemma BackInOrder(s: Sys, t: Sys, s': Sys, i: AgentId, k: Key)
    requires Fresh(s, i) && EventsPass(s) && Opened(s, t, i, 1) && SameOutbox(s.agents[i].store, t.agents[i].store)
    requires Flushed(t, s', i, k, Session(s.nextToken, AtTop)) && Drained(s'.agents[i].store) && s.agents[i].store.cap >= 2 && !k.EventKey?
    requires Rests(t.agents[i].store, s.now) && k in s.agents[i].store.outbox
    ensures AtRest(s', i)
  {
    SameTasksSame(t.agents[i].store, s'.agents[i].store, WorkerTask(0, GooglePlaces, 0, 0), i, s.now);
    hide Rests, EnsureRun;
  }

  // ---------- two writes under one key ----------

  /** Two executions have saved candidates under one key. */
  ghost predicate KeyUsedTwice(s: Sys) {
    exists m, n :: 0 <= m < n < |s.writes| && s.writes[m].task == s.writes[n].task && s.writes[m].attempt == s.writes[n].attempt
  }

  /** The first worker searches task t and saves a candidate; then it stops and its lease runs out. The entry that the
      next claim loads has counted nothing. */
  lemma FirstWrite(s: Sys, i: AgentId, j: nat, c: Candidate) returns (steps: seq<Step>, s2: Sys, s': Sys, x: Exec)
    requires Begins(s) && EventsPass(s) && i in s.agents && s.crm.run.maxCandidates > 0
    requires LastOf(s.crm.run.tasks, j) && Repeated(s.crm.run.tasks, j)
    ensures Runs(s, steps, s') && Parked(s2, s', i, x, c) && x.task == s.crm.run.tasks[j].id && x.attempt == 1
    ensures Untried(s'.crm.run.tasks, j) && s'.crm.run.tasks[j].id == x.task
    ensures OthersSame(s, s2, i) && s2.rid == s.rid && s2.refuses == s.refuses && s2.crm.run.maxCandidates == s.crm.run.maxCandidates
  {
    BeginsWilling(s, i);
    BeginsPending(s, j);
    hide Runs, Begins, Willing, AtRest, Executes, Rests, Searches, Onward, Fresh, Drained, LastOf, Repeated, Untried, Spared, ApplyEvents;
    var s1 := Loads(s, i, j);
    var more, others, source;
    more, s2, x, others, source := Reaches(s1, i, s.crm.run.tasks[j].id, 1);
    ReachedParks(s, s1, s2, i, x, others, source, s.crm.run.tasks[j]);
    StillUntried(s.crm.run.tasks, others, j, StartedEvent(x.event, WorkerTask(x.task, source, x.attempt, x.maxAttempts)));
    var last;
    last, s' := Parks(s2, i, x, c);
    RunsJoin(s, Opening(i, 1) + [Work(i, DrainEnds)], s1, more, s2);
    RunsJoin(s, Opening(i, 1) + [Work(i, DrainEnds)] + more, s2, last, s');
    steps := Opening(i, 1) + [Work(i, DrainEnds)] + more + last;
  }

  lemma ReachedParks(s: Sys, s1: Sys, s2: Sys, i: AgentId, x: Exec, others: seq<ClaimedTask>, source: SourceName, c: ClaimedTask)
    requires Loaded(s, s1, i, c) && c.id == x.task && c.attempts == 0 && Got(s1, s2, i, x, others, source) && s1.crm.run.status == RunRunning && s.writes == [] && NoCandidates(s)
    requires s1.crm.run.candidates == s.crm.run.candidates && s1.crm.idem == s.crm.idem
    requires s1.agents[i].store.outbox == map[] && s1.agents[i].store.cap == s.crm.run.maxCandidates && s1.agents[i].store.baseline == 0
    ensures s2.crm.run.status == RunRunning && NoCandidates(s2) && s2.writes == [] && s2.agents[i].store.cap == s2.crm.run.maxCandidates
    ensures s2.agents[i].store.baseline == 0 && forall k :: k in s2.agents[i].store.outbox ==> k.EventKey?
    ensures s2.rid == s.rid && s2.refuses == s.refuses && OthersSame(s, s2, i) && s2.crm.run.maxCandidates == s.crm.run.maxCandidates
    ensures x.attempt == 1 && Searches(s2, i, x) && Spared(s.crm.run.tasks, others, x.task)
  {
    hide AtRest, Searches, Spared, ApplyEvents;
  }

  /** Neither the events about other tasks nor the task's own running event reach the entry. */
  lemma StillUntried(a: seq<ClaimedTask>, others: seq<ClaimedTask>, j: nat, e: RunEvent)
    requires Untried(a, j) && Repeated(a, j) && Spared(a, others, a[j].id) && e.task == Some(a[j].id)
    ensures var b := ApplyEvents(others, [e]); Untried(b, j) && b[j].id == a[j].id
  {
    OneEvent(others, e);
    AppliedFirst(others, e, j);
    var i :| 0 <= i < j && a[i].id == a[j].id;
    assert others[i].id == others[j].id;
    assert Repeated(others, j);
  }

  /** The worker that comes next is at the top of the loop, and task t waits with no attempt counted. */
  lemma NextLoads(s: Sys, s2: Sys, s1: Sys, i: AgentId, next: AgentId, j: nat, x: Exec, c: Candidate) returns (steps: seq<Step>, s': Sys)
    requires Begins(s) && EventsPass(s) && next in s.agents && (next != i || s.crm.run.maxCandidates >= 2) && s.crm.run.maxCandidates > 0
    requires OthersSame(s, s2, i) && s2.rid == s.rid && s2.refuses == s.refuses && s2.crm.run.maxCandidates == s.crm.run.maxCandidates
    requires Parked(s2, s1, i, x, c) && Untried(s1.crm.run.tasks, j)
    ensures Runs(s1, steps, s') && Loaded(s1, s', next, s1.crm.run.tasks[j])
  {
    hide Runs, AtRest;
    if next == i {
      s' := ComesBack(s1, i, j, CandidatesKey(s.rid, x.task, x.attempt), c);
      steps := Opening(i, 1) + [Deliver(i, CandidatesKey(s.rid, x.task, x.attempt), Answered), Work(i, DrainEnds)];
    } else {
      BeginsWilling(s, next);
      s' := Loads(s1, next, j);
      steps := Opening(next, 1) + [Work(next, DrainEnds)];
    }
  }

  lemma SecondWrite(s: Sys, s1: Sys, i: AgentId, e: ClaimedTask, x: Exec, c: Candidate) returns (steps: seq<Step>, s': Sys)
    requires Loaded(s, s1, i, e) && e.status == Pending && e.attempts == 0 < e.maxAttempts && s.writes == [x] && x.task == e.id && x.attempt == 1
    ensures Runs(s1, steps, s') && KeyUsedTwice(s')
  {
    hide Runs, ValidLease, Executes, Rests, ApplyEvents, Spared;
    var s2, y, others, source;
    steps, s2, y, others, source := Reaches(s1, i, e.id, 1);
    s' := SavedCandidates(s2, i, [c]);
    QueueRuns(s2, i, Save([c]));
    RunsJoin(s1, steps, s2, [Queue(i, Save([c]))], s');
    steps := steps + [Queue(i, Save([c]))];
    assert s'.writes == [x, y];
    assert s'.writes[0].task == s'.writes[1].task && s'.writes[0].attempt == s'.writes[1].attempt;
  }

  /** From every beginning with a repeated id some run saves candidates of two executions under one key: worker i
      searches the task, saves a candidate and stops; `next`, the same worker or another, searches it again under the
      same attempt. */
  lemma RepeatedIdRepeatsKey(s: Sys, i: AgentId, next: AgentId, j: nat, c: Candidate) returns (steps: seq<Step>, s': Sys)
    requires Begins(s) && EventsPass(s) && i in s.agents && next in s.agents
    requires s.crm.run.maxCandidates > (if next == i then 1 else 0)
    requires LastOf(s.crm.run.tasks, j) && Repeated(s.crm.run.tasks, j)
    ensures Runs(s, steps, s') && KeyUsedTwice(s')
  {
    hide Runs, Begins, KeyUsedTwice, Repeated, Parked, OthersSame, EventsPass, Loaded;
    var s0, s1, x;
    steps, s0, s1, x := FirstWrite(s, i, j, c);
    var more, s2 := NextLoads(s, s0, s1, i, next, j, x, c);
    assert s1.writes == [x] by { ParkedWrites(s0, s1, i, x, c); }
    var last;
    last, s' := SecondWrite(s1, s2, next, s1.crm.run.tasks[j], x, c);
    RunsJoin(s, steps, s1, more, s2);
    RunsJoin(s, steps + more, s2, last, s');
    steps := steps + more + last;
  }

  lemma ParkedWrites(s: Sys, s': Sys, i: AgentId, x: Exec, c: Candidate)
    requires Parked(s, s', i, x, c)
    ensures s'.writes == [x]
  {
  }

  // ---------- exactly when keys are unique ----------

  lemma {:induction false} LastIndex(tasks: seq<ClaimedTask>, n: nat) returns (j: nat)
    requires n < |tasks|
    ensures n <= j && LastOf(tasks, j) && tasks[j].id == tasks[n].id
    decreases |tasks| - n
  {
    if i :| n < i < |tasks| && tasks[i].id == tasks[n].id { j := LastIndex(tasks, i); } else { j := n; }
  }

  /** In no run from s is a candidates key used twice. */
  ghost predicate KeysStayUnique(s: Sys) {
    forall steps, s' :: Runs(s, steps, s') ==> !KeyUsedTwice(s')
  }

  /** Keys stay unique if and only if the ids are distinct, whenever the CRM takes events and a second search can
      happen: one candidate does not fill the run, or another worker has not heard of it. */
  lemma KeysAreUniqueIffIdsAreDistinct(s: Sys, i: AgentId, next: AgentId)
    requires Begins(s) && EventsPass(s) && i in s.agents && next in s.agents
    requires s.crm.run.maxCandidates >= 2 || (s.crm.run.maxCandidates == 1 && next != i)
    ensures KeysStayUnique(s) <==> DistinctIds(s.crm.run.tasks)
  {
    if DistinctIds(s.crm.run.tasks) {
      DistinctKeysUnique(s);
    } else {
      var m, n :| 0 <= m < n < |s.crm.run.tasks| && s.crm.run.tasks[m].id == s.crm.run.tasks[n].id;
      var j := LastIndex(s.crm.run.tasks, n);
      assert Repeated(s.crm.run.tasks, j) by { assert m < j; }
      var steps, s' := RepeatedIdRepeatsKey(s, i, next, j, Candidate(None, 0));
    }
  }

  lemma DistinctKeysUnique(s: Sys)
    requires Begins(s) && DistinctIds(s.crm.run.tasks)
    ensures KeysStayUnique(s)
  {
    hide Begins, Runs;
    forall steps, s' | Runs(s, steps, s') ensures !KeyUsedTwice(s') {
      assert Reachable(s') by { assert Init(s); }
      forall m, n | 0 <= m < n < |s'.writes| ensures !(s'.writes[m].task == s'.writes[n].task && s'.writes[m].attempt == s'.writes[n].attempt) {
        Keys.CandidateKeysAreUnique(s', m, n);
      }
    }
  }
}
