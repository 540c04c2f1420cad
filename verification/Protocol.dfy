/** The protocol between the CRM and any number of worker processes, for one run.

    Each process owns one durable store. Every step is one locked method of the store or of the CRM, or a
    crash; a crash loses the program counter and keeps the store. Messages are delivered in any order,
    requests and answers are lost at will, the clock advances at will, and other runs may use the CRM's
    idempotency tables for their own keys. The last fields of `Sys` only record history. */
module Protocol {
  import opened Contracts
  import opened CrmSpec
  import opened StoreSpec
  import opened Delivery

  /** One execution of a task, named by its `task_started` event. */
  datatype Exec = Exec(event: EventId, task: TaskId, attempt: nat, maxAttempts: nat)

  datatype Resume = ToTop | ToSearch(exec: Exec) | ToExit

  /** Where a worker is inside `poll_once`. */
  datatype Pc =
    | Idle
    | Claimed(claim: Claim)                 // claim_run answered, ensure_run not called
    | Session(token: Token, phase: Phase)   // inside _process_claim

  datatype Phase =
    | Draining(next: Resume)                // inside _deliver_outbox
    | AtTop                                 // the outbox was drained
    | Holding(task: WorkerTask)             // claim_task answered
    | Ready(task: WorkerTask)               // the run lease was renewed
    | Doing(exec: Exec, stage: Stage)       // inside _execute_task, the running event delivered
    | Closing                               // cancelling tasks, preparing the report

  datatype Stage =
    | Searching
    | Saved                                 // save_candidates done
    | Finished                              // finish_task done
    | Raised                                // an exception was caught
    | Failing                               // fail_task done

  datatype Agent = Agent(store: MemoryRun, pc: Pc)

  datatype Entry = Entry(key: Key, payload: Payload, accepted: nat)

  predicate In(pc: Pc, phase: Phase) { pc.Session? && pc.phase == phase }

  predicate At(pc: Pc, stage: Stage) { pc.Session? && pc.phase.Doing? && pc.phase.stage == stage }

  predicate DrainingTo(pc: Pc) { pc.Session? && pc.phase.Draining? }

  datatype Sys = Sys(
    rid: RunId, refuses: Payload -> bool, crm: Crm, now: nat, nextToken: nat, nextEvent: nat,
    agents: map<AgentId, Agent>,
    log: seq<Entry>,                      // messages of this run in the order the CRM first accepted them
    holder: map<Token, AgentId>,          // who was granted each token
    starter: map<EventId, AgentId>,       // who started each execution
    reserved: map<EventId, Exec>,         // executions whose running event the CRM accepted while they ran
    writes: seq<Exec>,                    // executions that saved candidates, in order
    written: map<Key, seq<Candidate>>,    // the batch saved under each candidates key
    finalized: seq<Payload>,              // terminal payloads that a worker recorded as delivered
    done: map<TaskId, EventId>)           // tasks whose completion event was queued

  datatype WorldStep =
    | Tick(ticks: nat)
    | RequestCancel
    | OtherRuns(idem: map<Key, Payload>, acks: map<Key, Ack>)

  datatype LeaseStep = ClaimRun(seconds: nat) | Ensure | TakeTask(seconds: nat) | Renew(seconds: nat) | BeatRun(seconds: nat)

  datatype WorkStep =
    | DrainEnds | Pass(seconds: nat) | Finish(kept: nat, rejected: nat) | Raise | GiveBack | Abandon
    | BeatTask(task: TaskId, seconds: nat)
    | Close | Cancel | Leave

  datatype QueueStep =
    | StartTask
    | Save(batch: seq<Candidate>)
    | ReportDone(event: RunEvent)
    | ReportFailure(event: RunEvent)
    | NoteCancel
    | QueueTerminal(status: RunStatus, payload: Payload)

  datatype Step =
    | World(world: WorldStep)
    | Lease(i: AgentId, lease: LeaseStep)
    | Work(i: AgentId, work: WorkStep)
    | Queue(i: AgentId, queue: QueueStep)
    | Deliver(i: AgentId, key: Key, channel: Channel)
    | Replay(i: AgentId, key: Key, channel: Channel)

  // ---------- pieces of steps ----------

  predicate FirstAccepted(before: Crm, after: Crm, k: Key) { k !in before.idem && k in after.idem }

  function Accepted(after: Crm, k: Key, p: Payload): nat {
    if p.Candidates? && k in after.results then after.results[k].accepted else 0
  }

  function Logged(log: seq<Entry>, before: Crm, after: Crm, k: Key, p: Payload): seq<Entry> {
    if FirstAccepted(before, after, k) then log + [Entry(k, p, Accepted(after, k, p))] else log
  }

  /** The running event of an execution still waiting to search, accepted just now. */
  ghost predicate Reserves(s: Sys, after: Crm, pc: Pc, k: Key) {
    pc.Session? && pc.phase.Draining? && pc.phase.next.ToSearch? && k == EventKey(s.rid, pc.phase.next.exec.event) && FirstAccepted(s.crm, after, k)
  }

  ghost predicate Finalizes(before: MemoryRun, after: MemoryRun, k: Key) {
    k in before.outbox && before.outbox[k].Terminal() && k !in before.delivered && k in after.delivered
  }

  function StartedEvent(id: EventId, t: WorkerTask): RunEvent {
    RunEvent(id, Some(t.id), Some(Running), Some(t.attempt), None, None, None, false)
  }

  /** The success event: any metrics except `attempt`, which it does not carry. */
  predicate IsDoneEvent(e: RunEvent, id: EventId, x: Exec) {
    e.id == id && e.task == Some(x.task) && e.status == Some(Completed) && e.attempt == None
  }

  predicate IsFailureEvent(e: RunEvent, id: EventId, x: Exec) {
    && e.id == id && e.task == Some(x.task) && e.attempt == None
    && e.status == Some(if x.attempt >= x.maxAttempts then Failed else Pending)
  }

  function CancelNote(id: EventId): RunEvent { RunEvent(id, None, None, None, None, None, None, false) }

  ghost function With(s: Sys, i: AgentId, store: MemoryRun, pc: Pc): Sys
  {
    s.(agents := s.agents[i := Agent(store, pc)])
  }

  // ---------- steps: when they can happen and what they do ----------

  ghost function Granting(s: Sys, i: AgentId, seconds: nat): Sys
    requires i in s.agents
  {
    With(s, i, s.agents[i].store, Claimed(ClaimOf(s.crm.run, s.now, seconds, s.nextToken))).(
      crm := s.crm.(run := Granted(s.crm.run, s.now, seconds, s.nextToken)),
      nextToken := s.nextToken + 1, holder := s.holder[s.nextToken := i])
  }

  ghost function Ensured(s: Sys, i: AgentId): Sys
    requires i in s.agents && s.agents[i].pc.Claimed?
  {
    With(s, i, EnsureRun(s.agents[i].store, s.agents[i].pc.claim, Some(i), s.now),
         Session(s.agents[i].pc.claim.token, Draining(ToTop)))
  }

  /** A delivery that stops before a search may still be followed by the cancellation path. */
  ghost function Halted(pc: Pc, channel: Channel): Pc
    requires DrainingTo(pc)
  {
    if pc.phase.next.ToSearch? && channel != Crashed then Session(pc.token, Closing) else Idle
  }

  ghost predicate CanDeliver(s: Sys, i: AgentId, k: Key) {
    i in s.agents && DrainingTo(s.agents[i].pc) && Queued(s.agents[i].store, k)
  }

  ghost function Delivered(s: Sys, i: AgentId, k: Key, channel: Channel): Sys
    requires CanDeliver(s, i, k)
  {
    var a := s.agents[i];
    var p := a.store.outbox[k];
    var crm := CrmAfter(s.crm, a.pc.token, s.now, k, p, channel, s.refuses(p));
    var (store, more) := StoreAfter(s.crm, a.store, a.pc.token, s.now, k, channel, s.refuses(p));
    With(s, i, store, if more then a.pc else Halted(a.pc, channel)).(
      crm := crm, log := Logged(s.log, s.crm, crm, k, p),
      reserved := if Reserves(s, crm, a.pc, k) then s.reserved[a.pc.phase.next.exec.event := a.pc.phase.next.exec] else s.reserved,
      finalized := if Finalizes(a.store, store, k) then s.finalized + [p] else s.finalized)
  }

  ghost predicate CanReplay(s: Sys, i: AgentId, k: Key) {
    && i in s.agents && s.agents[i].pc.Idle? && Queued(s.agents[i].store, k)
    && s.agents[i].store.outbox[k].Terminal() && s.agents[i].store.token.Some?
  }

  ghost function Replayed(s: Sys, i: AgentId, k: Key, channel: Channel): Sys
    requires CanReplay(s, i, k)
  {
    var a := s.agents[i];
    var p := a.store.outbox[k];
    var crm := CrmAfter(s.crm, a.store.token.value, s.now, k, p, channel, s.refuses(p));
    var store := StoreAfterReplay(s.crm, a.store, s.now, k, channel, s.refuses(p));
    With(s, i, store, Idle).(
      crm := crm, log := Logged(s.log, s.crm, crm, k, p),
      finalized := if Finalizes(a.store, store, k) then s.finalized + [p] else s.finalized)
  }

  ghost function Resumed(pc: Pc): Pc
    requires DrainingTo(pc)
  {
    match pc.phase.next
    case ToTop => Session(pc.token, AtTop)
    case ToSearch(x) => Session(pc.token, Doing(x, Searching))
    case ToExit => Idle
  }

  /** No dead letter and the cap not reached: only then does the worker ask for a task. */
  predicate AsksForTask(a: Agent) { In(a.pc, AtTop) && a.store.dead == {} && a.store.baseline < a.store.cap }

  ghost predicate CanTake(s: Sys, i: AgentId, seconds: nat) {
    && i in s.agents && AsksForTask(s.agents[i])
    && ClaimTask(s.agents[i].store, i, s.now, seconds).1.Some?
  }

  ghost function Took(s: Sys, i: AgentId, seconds: nat): Sys
    requires CanTake(s, i, seconds)
  {
    var (store, task) := ClaimTask(s.agents[i].store, i, s.now, seconds);
    With(s, i, store, Session(s.agents[i].pc.token, Holding(task.value)))
  }

  ghost function Beaten(s: Sys, i: AgentId, seconds: nat, pc: Pc): Sys
    requires i in s.agents && s.agents[i].pc.Session?
  {
    With(s, i, s.agents[i].store, pc).(crm := s.crm.(run := Beat(s.crm.run, s.agents[i].pc.token, s.now, seconds)))
  }

  ghost function Started(s: Sys, i: AgentId): Sys
    requires i in s.agents && s.agents[i].pc.Session? && s.agents[i].pc.phase.Ready?
  {
    var a := s.agents[i];
    var t := a.pc.phase.task;
    With(s, i, SaveEvent(a.store, s.rid, StartedEvent(s.nextEvent, t)),
         Session(a.pc.token, Draining(ToSearch(Exec(s.nextEvent, t.id, t.attempt, t.maxAttempts))))).(
      nextEvent := s.nextEvent + 1, starter := s.starter[s.nextEvent := i])
  }

  ghost function SavedCandidates(s: Sys, i: AgentId, batch: seq<Candidate>): Sys
    requires i in s.agents && At(s.agents[i].pc, Searching)
  {
    var a := s.agents[i];
    var x := a.pc.phase.exec;
    var s' := With(s, i, QueueCandidates(a.store, s.rid, x.task, x.attempt, batch), Session(a.pc.token, Doing(x, Saved)));
    if |batch| == 0 then s'
    else s'.(writes := s.writes + [x], written := s.written[CandidatesKey(s.rid, x.task, x.attempt) := batch])
  }

  /** An event with the next fresh id is queued. */
  ghost function Noted(s: Sys, i: AgentId, e: RunEvent, pc: Pc): Sys
    requires i in s.agents
  {
    With(s, i, SaveEvent(s.agents[i].store, s.rid, e), pc).(nextEvent := s.nextEvent + 1)
  }

  ghost predicate CanQueueTerminal(s: Sys, i: AgentId, status: RunStatus, payload: Payload) {
    && i in s.agents && In(s.agents[i].pc, Closing) && payload.Terminal()
    && status == (if payload.Complete? then payload.report.status else RunFailed)
    && status in {RunCompleted, RunPartial, RunCancelled, RunFailed}
  }

  ghost predicate WorldEnabled(s: Sys, step: WorldStep) {
    step.OtherRuns? ==> forall k: Key :: k in step.idem || k in step.acks ==> k.Owner() != s.rid
  }

  ghost function AfterWorld(s: Sys, step: WorldStep): Sys
    requires WorldEnabled(s, step)
  {
    match step
    case Tick(ticks) => s.(now := s.now + ticks)
    case RequestCancel => s.(crm := s.crm.(run := CancelRun(s.crm.run)))
    case OtherRuns(idem, acks) => s.(crm := s.crm.(idem := s.crm.idem + idem, results := s.crm.results + acks))
  }

  ghost predicate LeaseEnabled(s: Sys, i: AgentId, step: LeaseStep) {
    && i in s.agents
    && match step
       case ClaimRun(_) => s.agents[i].pc.Idle? && Claimable(s.crm.run, s.now)
       case Ensure => s.agents[i].pc.Claimed?
       case TakeTask(seconds) => CanTake(s, i, seconds)
       case Renew(_) =>
         s.agents[i].pc.Session? && s.agents[i].pc.phase.Holding? && ValidLease(s.crm.run, s.agents[i].pc.token, s.now)
       case BeatRun(_) => s.agents[i].pc.Session?
  }

  ghost function AfterLease(s: Sys, i: AgentId, step: LeaseStep): Sys
    requires LeaseEnabled(s, i, step)
  {
    match step
    case ClaimRun(seconds) => Granting(s, i, seconds)
    case Ensure => Ensured(s, i)
    case TakeTask(seconds) => Took(s, i, seconds)
    case Renew(seconds) => Beaten(s, i, seconds, Session(s.agents[i].pc.token, Ready(s.agents[i].pc.phase.task)))
    case BeatRun(seconds) => Beaten(s, i, seconds, s.agents[i].pc)
  }

  /** `heartbeat_task` would succeed. */
  predicate Tends(store: MemoryRun, t: TaskId, worker: AgentId) {
    Owns(store, t, worker) && store.tasks[t].status == Running
  }

  ghost predicate WorkEnabled(s: Sys, i: AgentId, step: WorkStep) {
    && i in s.agents
    && var a := s.agents[i];
       match step
       case DrainEnds => DrainingTo(a.pc) && Drained(a.store)
       case Pass(seconds) => AsksForTask(a) && ClaimTask(a.store, i, s.now, seconds).1.None?
       case Finish(_, _) => At(a.pc, Saved) && Owns(a.store, a.pc.phase.exec.task, i)
       case Raise => At(a.pc, Searching) || At(a.pc, Saved)
       case GiveBack => At(a.pc, Raised)
       case Abandon => At(a.pc, Searching) && !Tends(a.store, a.pc.phase.exec.task, i)
       case BeatTask(_, _) => a.pc.Session?
       case Close => a.pc.Session?
       case Cancel => In(a.pc, Closing)
       case Leave => true
  }

  ghost function Worked(a: Agent, i: AgentId, now: nat, step: WorkStep): Agent
    requires step.DrainEnds? ==> DrainingTo(a.pc)
    requires step.Finish? || step.Raise? || step.GiveBack? || step.Abandon? ==> a.pc.Session? && a.pc.phase.Doing?
    requires step.Close? ==> a.pc.Session?
  {
    match step
    case DrainEnds => a.(pc := Resumed(a.pc))
    case Pass(seconds) => a.(store := ClaimTask(a.store, i, now, seconds).0)
    case Finish(kept, rejected) =>
      Agent(FinishTask(a.store, a.pc.phase.exec.task, i, kept, rejected), Session(a.pc.token, Doing(a.pc.phase.exec, Finished)))
    case Raise => a.(pc := Session(a.pc.token, Doing(a.pc.phase.exec, Raised)))
    case GiveBack => Agent(FailTask(a.store, a.pc.phase.exec.task, i), Session(a.pc.token, Doing(a.pc.phase.exec, Failing)))
    case Abandon => a.(pc := Session(a.pc.token, Draining(ToTop)))
    case BeatTask(t, seconds) => a.(store := HeartbeatTask(a.store, t, i, now, seconds))
    case Close => a.(pc := Session(a.pc.token, Closing))
    case Cancel => a.(store := CancelTasks(a.store))
    case Leave => a.(pc := Idle)
  }

  ghost function AfterWork(s: Sys, i: AgentId, step: WorkStep): Sys
    requires WorkEnabled(s, i, step)
  {
    var b := Worked(s.agents[i], i, s.now, step);
    With(s, i, b.store, b.pc)
  }

  ghost predicate QueueEnabled(s: Sys, i: AgentId, step: QueueStep) {
    && i in s.agents
    && var pc := s.agents[i].pc;
       match step
       case StartTask => pc.Session? && pc.phase.Ready?
       case Save(_) => At(pc, Searching)
       case ReportDone(e) => At(pc, Finished) && IsDoneEvent(e, s.nextEvent, pc.phase.exec)
       case ReportFailure(e) => At(pc, Failing) && IsFailureEvent(e, s.nextEvent, pc.phase.exec)
       case NoteCancel => In(pc, Closing)
       case QueueTerminal(status, payload) => CanQueueTerminal(s, i, status, payload)
  }

  ghost function AfterQueue(s: Sys, i: AgentId, step: QueueStep): Sys
    requires QueueEnabled(s, i, step)
  {
    var a := s.agents[i];
    match step
    case StartTask => Started(s, i)
    case Save(batch) => SavedCandidates(s, i, batch)
    case ReportDone(e) => Noted(s, i, e, Session(a.pc.token, Draining(ToTop))).(done := s.done[a.pc.phase.exec.task := e.id])
    case ReportFailure(e) => Noted(s, i, e, Session(a.pc.token, Draining(ToTop)))
    case NoteCancel => Noted(s, i, CancelNote(s.nextEvent), a.pc)
    case QueueTerminal(status, payload) =>
      With(s, i, Put(a.store, TerminalKey(s.rid, status), payload), Session(a.pc.token, Draining(ToExit)))
  }

  ghost predicate Enabled(s: Sys, step: Step) {
    match step
    case World(w) => WorldEnabled(s, w)
    case Lease(i, l) => LeaseEnabled(s, i, l)
    case Work(i, w) => WorkEnabled(s, i, w)
    case Queue(i, q) => QueueEnabled(s, i, q)
    case Deliver(i, k, _) => CanDeliver(s, i, k)
    case Replay(i, k, _) => CanReplay(s, i, k)
  }

  ghost function Apply(s: Sys, step: Step): Sys
    requires Enabled(s, step)
  {
    match step
    case World(w) => AfterWorld(s, w)
    case Lease(i, l) => AfterLease(s, i, l)
    case Work(i, w) => AfterWork(s, i, w)
    case Queue(i, q) => AfterQueue(s, i, q)
    case Deliver(i, k, channel) => Delivered(s, i, k, channel)
    case Replay(i, k, channel) => Replayed(s, i, k, channel)
  }

  // ---------- runs of the protocol ----------

  /** A freshly enqueued run, any number of workers with empty stores. */
  ghost predicate Begins(s: Sys) {
    && s.crm.run == NewRun(s.crm.run.maxCandidates, s.crm.run.tasks)
    && (forall j :: 0 <= j < |s.crm.run.tasks| ==>
          s.crm.run.tasks[j].status == Pending && s.crm.run.tasks[j].attempts == 0 && s.crm.run.tasks[j].maxAttempts >= 1)
    && (forall k :: k in s.crm.idem || k in s.crm.results ==> k.Owner() != s.rid)
    && (forall i :: i in s.agents ==> s.agents[i] == Agent(NewMemoryRun(s.crm.run.maxCandidates), Idle))
    && s.log == [] && s.holder == map[] && s.starter == map[] && s.reserved == map[] && s.writes == []
    && s.written == map[] && s.finalized == [] && s.done == map[]
  }

  /** ... whose task ids are distinct. */
  ghost predicate Init(s: Sys) { Begins(s) && DistinctIds(s.crm.run.tasks) }

  /** The state after a sequence of steps, each enabled when it is taken. */
  ghost predicate Runs(s: Sys, steps: seq<Step>, s': Sys)
    decreases |steps|
  {
    if |steps| == 0 then s == s'
    else Enabled(s, steps[0]) && Runs(Apply(s, steps[0]), steps[1..], s')
  }

  ghost predicate Reachable(s: Sys) {
    exists s0, steps :: Init(s0) && Runs(s0, steps, s)
  }

  /** Every step keeps the property. */
  ghost predicate Kept(inv: Sys -> bool) {
    forall s, step :: inv(s) && Enabled(s, step) ==> inv(Apply(s, step))
  }

  lemma {:induction false} RunsKeep(inv: Sys -> bool, s: Sys, steps: seq<Step>, s': Sys)
    requires inv(s) && Kept(inv) && Runs(s, steps, s')
    ensures inv(s')
    decreases |steps|
  {
    hide Enabled, Apply;
    if |steps| > 0 { RunsKeep(inv, Apply(s, steps[0]), steps[1..], s'); }
  }

  /** What holds at the start and is kept by every step holds in every run. */
  lemma ReachableKeep(inv: Sys -> bool, s: Sys)
    requires Reachable(s) && Kept(inv) && forall t :: Init(t) ==> inv(t)
    ensures inv(s)
  {
    hide Init, Kept, Runs;
    var s0, steps :| Init(s0) && Runs(s0, steps, s);
    RunsKeep(inv, s0, steps, s);
  }
}
