/** The steps of the protocol machine, one by one, as the methods of the worker take them. */
module WorkerSteps {
  import opened Contracts
  import opened CrmSpec
  import opened CrmLaws
  import opened StoreSpec
  import opened StoreLaws
  import opened Delivery
  import opened Protocol
  import opened ProtocolSteps
  import opened ProtocolSessions

  /** Some run of the machine leads from s to s'. */
  ghost predicate Leads(s: Sys, s': Sys) { exists steps :: Runs(s, steps, s') }

  lemma LeadsHere(s: Sys)
    ensures Leads(s, s)
  {
    assert Runs(s, [], s);
  }

  lemma LeadsOn(s: Sys, t: Sys, u: Sys)
    requires Leads(s, t) && Leads(t, u)
    ensures Leads(s, u)
  {
    hide Runs;
    var a, b :| Runs(s, a, t) && Runs(t, b, u);
    RunsJoin(s, a, t, b, u);
  }

  /** So every theorem about reachable states holds afterwards. */
  lemma StaysReachable(s: Sys, s': Sys)
    requires Reachable(s) && Leads(s, s')
    ensures Reachable(s')
  {
    hide Init, Runs;
    var s0, a :| Init(s0) && Runs(s0, a, s);
    var b :| Runs(s, b, s');
    RunsJoin(s0, a, s, b, s');
  }

  lemma LeadsBy(s: Sys, step: Step)
    requires Enabled(s, step)
    ensures Leads(s, Apply(s, step))
  {
    hide Enabled, Apply, Runs;
    RunsOne(s, step);
  }

  // ---------- time ----------

  lemma TimeGoesOn(s: Sys, now: nat) returns (s': Sys)
    requires s.now <= now
    ensures Leads(s, s') && s' == s.(now := now)
  {
    hide Leads;
    LeadsBy(s, World(Tick(now - s.now)));
    s' := Apply(s, World(Tick(now - s.now)));
  }

  // ---------- leases ----------

  lemma LoadsClaim(s: Sys, i: AgentId) returns (s': Sys)
    requires i in s.agents && s.agents[i].pc.Claimed?
    ensures Leads(s, s')
    ensures s' == With(s, i, EnsureRun(s.agents[i].store, s.agents[i].pc.claim, Some(i), s.now), Session(s.agents[i].pc.claim.token, Draining(ToTop)))
  {
    hide Leads, EnsureRun;
    LeadsBy(s, Step.Lease(i, Ensure));
    s' := Apply(s, Step.Lease(i, Ensure));
  }

  lemma TakesTask(s: Sys, i: AgentId, seconds: nat) returns (s': Sys)
    requires CanTake(s, i, seconds)
    ensures Leads(s, s')
    ensures var (store, task) := ClaimTask(s.agents[i].store, i, s.now, seconds);
      s' == With(s, i, store, Session(s.agents[i].pc.token, Holding(task.value)))
  {
    hide Leads, ClaimTask;
    LeadsBy(s, Step.Lease(i, TakeTask(seconds)));
    s' := Apply(s, Step.Lease(i, TakeTask(seconds)));
  }

  lemma PassesTasks(s: Sys, i: AgentId, seconds: nat) returns (s': Sys)
    requires i in s.agents && AsksForTask(s.agents[i]) && ClaimTask(s.agents[i].store, i, s.now, seconds).1.None?
    ensures Leads(s, s') && s' == With(s, i, ClaimTask(s.agents[i].store, i, s.now, seconds).0, s.agents[i].pc)
  {
    hide Leads, ClaimTask;
    LeadsBy(s, Work(i, Pass(seconds)));
    s' := Apply(s, Work(i, Pass(seconds)));
  }

  lemma RenewsLease(s: Sys, i: AgentId, seconds: nat) returns (s': Sys)
    requires i in s.agents && s.agents[i].pc.Session? && s.agents[i].pc.phase.Holding? && ValidLease(s.crm.run, s.agents[i].pc.token, s.now)
    ensures Leads(s, s')
    ensures s' == With(s, i, s.agents[i].store, Session(s.agents[i].pc.token, Ready(s.agents[i].pc.phase.task))).(
                    crm := s.crm.(run := Beat(s.crm.run, s.agents[i].pc.token, s.now, seconds)))
  {
    hide Leads;
    LeadsBy(s, Step.Lease(i, Renew(seconds)));
    s' := Apply(s, Step.Lease(i, Renew(seconds)));
  }

  // ---------- work ----------

  lemma DrainEndsNow(s: Sys, i: AgentId) returns (s': Sys)
    requires i in s.agents && DrainingTo(s.agents[i].pc) && Drained(s.agents[i].store)
    ensures Leads(s, s') && s' == With(s, i, s.agents[i].store, Resumed(s.agents[i].pc))
  {
    hide Leads, Drained;
    LeadsBy(s, Work(i, DrainEnds));
    s' := Apply(s, Work(i, DrainEnds));
  }

  lemma Leaves(s: Sys, i: AgentId) returns (s': Sys)
    requires i in s.agents
    ensures Leads(s, s') && s' == With(s, i, s.agents[i].store, Idle)
  {
    hide Leads;
    LeadsBy(s, Work(i, Leave));
    s' := Apply(s, Work(i, Leave));
  }

  lemma Closes(s: Sys, i: AgentId) returns (s': Sys)
    requires i in s.agents && s.agents[i].pc.Session?
    ensures Leads(s, s') && s' == With(s, i, s.agents[i].store, Session(s.agents[i].pc.token, Closing))
  {
    hide Leads;
    LeadsBy(s, Work(i, Close));
    s' := Apply(s, Work(i, Close));
  }

  lemma CancelsTasks(s: Sys, i: AgentId) returns (s': Sys)
    requires i in s.agents && In(s.agents[i].pc, Closing)
    ensures Leads(s, s') && s' == With(s, i, CancelTasks(s.agents[i].store), s.agents[i].pc)
  {
    hide Leads, CancelTasks;
    LeadsBy(s, Work(i, Cancel));
    s' := Apply(s, Work(i, Cancel));
  }

  lemma FinishesTask(s: Sys, i: AgentId, results: nat, rejected: nat) returns (s': Sys)
    requires i in s.agents && At(s.agents[i].pc, Saved) && Owns(s.agents[i].store, s.agents[i].pc.phase.exec.task, i)
    ensures Leads(s, s')
    ensures s' == With(s, i, FinishTask(s.agents[i].store, s.agents[i].pc.phase.exec.task, i, results, rejected),
                       Session(s.agents[i].pc.token, Doing(s.agents[i].pc.phase.exec, Finished)))
  {
    hide Leads, FinishTask;
    LeadsBy(s, Work(i, Finish(results, rejected)));
    s' := Apply(s, Work(i, Finish(results, rejected)));
  }

  /** An exception is caught and the task given back. */
  lemma GivesBack(s: Sys, i: AgentId) returns (s': Sys)
    requires i in s.agents && At(s.agents[i].pc, Searching)
    ensures Leads(s, s')
    ensures s' == With(s, i, FailTask(s.agents[i].store, s.agents[i].pc.phase.exec.task, i),
                       Session(s.agents[i].pc.token, Doing(s.agents[i].pc.phase.exec, Failing)))
  {
    hide Leads, FailTask;
    LeadsBy(s, Work(i, Raise));
    var t := Apply(s, Work(i, Raise));
    LeadsBy(t, Work(i, GiveBack));
    s' := Apply(t, Work(i, GiveBack));
    LeadsOn(s, t, s');
  }

  // ---------- messages ----------

  lemma LeadsQueue(s: Sys, i: AgentId, q: QueueStep)
    requires QueueEnabled(s, i, q)
    ensures Leads(s, AfterQueue(s, i, q))
  {
    hide QueueEnabled, AfterQueue, Runs;
    QueueRuns(s, i, q);
  }

  /** The history apart, only worker i and the next event id changed. */
  ghost predicate Queues(s: Sys, s': Sys, i: AgentId, store: MemoryRun, pc: Pc) {
    && i in s.agents
    && s' == With(s, i, store, pc).(nextEvent := s'.nextEvent, starter := s'.starter, done := s'.done, writes := s'.writes, written := s'.written)
  }

  lemma StartsTask(s: Sys, i: AgentId) returns (s': Sys)
    requires i in s.agents && s.agents[i].pc.Session? && s.agents[i].pc.phase.Ready?
    ensures var t := s.agents[i].pc.phase.task;
      && Leads(s, s') && s'.nextEvent == s.nextEvent + 1
      && Queues(s, s', i, SaveEvent(s.agents[i].store, s.rid, StartedEvent(s.nextEvent, t)),
                Session(s.agents[i].pc.token, Draining(ToSearch(Exec(s.nextEvent, t.id, t.attempt, t.maxAttempts)))))
  {
    hide Leads, SaveEvent;
    LeadsQueue(s, i, StartTask);
    s' := AfterQueue(s, i, StartTask);
  }

  lemma SavesKept(s: Sys, i: AgentId, batch: seq<Candidate>) returns (s': Sys)
    requires i in s.agents && At(s.agents[i].pc, Searching)
    ensures var x := s.agents[i].pc.phase.exec;
      && Leads(s, s') && s'.nextEvent == s.nextEvent
      && Queues(s, s', i, QueueCandidates(s.agents[i].store, s.rid, x.task, x.attempt, batch), Session(s.agents[i].pc.token, Doing(x, Saved)))
  {
    hide Leads, QueueCandidates;
    LeadsQueue(s, i, Save(batch));
    s' := AfterQueue(s, i, Save(batch));
  }

  /** The end of an execution is reported. */
  lemma ReportsEnd(s: Sys, i: AgentId, e: RunEvent) returns (s': Sys)
    requires i in s.agents && s.agents[i].pc.Session? && s.agents[i].pc.phase.Doing?
    requires (s.agents[i].pc.phase.stage == Finished && IsDoneEvent(e, s.nextEvent, s.agents[i].pc.phase.exec))
      || (s.agents[i].pc.phase.stage == Failing && IsFailureEvent(e, s.nextEvent, s.agents[i].pc.phase.exec))
    ensures Leads(s, s') && s'.nextEvent == s.nextEvent + 1
    ensures Queues(s, s', i, SaveEvent(s.agents[i].store, s.rid, e), Session(s.agents[i].pc.token, Draining(ToTop)))
  {
    hide Leads, SaveEvent;
    if s.agents[i].pc.phase.stage == Finished {
      LeadsQueue(s, i, ReportDone(e));
      s' := AfterQueue(s, i, ReportDone(e));
    } else {
      LeadsQueue(s, i, ReportFailure(e));
      s' := AfterQueue(s, i, ReportFailure(e));
    }
  }

  lemma NotesCancel(s: Sys, i: AgentId) returns (s': Sys)
    requires i in s.agents && In(s.agents[i].pc, Closing)
    ensures Leads(s, s') && s'.nextEvent == s.nextEvent + 1
    ensures Queues(s, s', i, SaveEvent(s.agents[i].store, s.rid, CancelNote(s.nextEvent)), s.agents[i].pc)
  {
    hide Leads, SaveEvent;
    LeadsQueue(s, i, NoteCancel);
    s' := AfterQueue(s, i, NoteCancel);
  }

  lemma QueuesReport(s: Sys, i: AgentId, report: Report) returns (s': Sys)
    requires i in s.agents && In(s.agents[i].pc, Closing) && report.status in {RunCompleted, RunPartial, RunCancelled, RunFailed}
    ensures Leads(s, s') && s'.nextEvent == s.nextEvent
    ensures Queues(s, s', i, Put(s.agents[i].store, TerminalKey(s.rid, report.status), Complete(report)),
                   Session(s.agents[i].pc.token, Draining(ToExit)))
  {
    hide Leads, Put;
    LeadsQueue(s, i, QueueTerminal(report.status, Complete(report)));
    s' := AfterQueue(s, i, QueueTerminal(report.status, Complete(report)));
  }

  // ---------- a whole delivery ----------

  datatype Attempt = Attempt(key: Key, now: nat, channel: Channel)

  /** Where a sequence of attempts leads: `more` if the last one went on, `fair` if each tried a queued message, after one
      that went on, and not earlier than it. */
  datatype Drive = Drive(crm: Crm, run: MemoryRun, now: nat, more: bool, fair: bool)

  ghost function Driven(d: Drive, token: Token, refuses: Payload -> bool, attempts: seq<Attempt>): Drive {
    if |attempts| == 0 then d
    else Next(Driven(d, token, refuses, attempts[..|attempts| - 1]), token, refuses, attempts[|attempts| - 1])
  }

  ghost function Next(d: Drive, token: Token, refuses: Payload -> bool, a: Attempt): Drive {
    if !d.fair || !d.more || !Queued(d.run, a.key) || a.now < d.now then d.(fair := false)
    else
      var p := d.run.outbox[a.key];
      var (run, more) := StoreAfter(d.crm, d.run, token, a.now, a.key, a.channel, refuses(p));
      Drive(CrmAfter(d.crm, token, a.now, a.key, p, a.channel, refuses(p)), run, a.now, more, true)
  }

  lemma DrivenNext(d: Drive, token: Token, refuses: Payload -> bool, attempts: seq<Attempt>, a: Attempt)
    ensures Driven(d, token, refuses, attempts + [a]) == Next(Driven(d, token, refuses, attempts), token, refuses, a)
  {
    assert (attempts + [a])[..|attempts|] == attempts;
  }

  predicate CrashedAt(d: Drive, attempts: seq<Attempt>) {
    !d.more && |attempts| > 0 && attempts[|attempts| - 1].channel == Crashed
  }

  /** The history apart, the state is that of the drive. */
  ghost predicate DrivenTo(s: Sys, s': Sys, i: AgentId, d: Drive, pc: Pc) {
    && i in s.agents
    && s' == With(s, i, d.run, pc).(crm := d.crm, now := d.now, log := s'.log, reserved := s'.reserved, finalized := s'.finalized)
  }

  lemma DrivenOn(s: Sys, t: Sys, s': Sys, i: AgentId, d: Drive, e: Drive, a: Pc, b: Pc)
    requires DrivenTo(s, t, i, d, a) && DrivenTo(t, s', i, e, b)
    ensures DrivenTo(s, s', i, e, b)
  {
    assert s.agents[i := Agent(d.run, a)][i := Agent(e.run, b)] == s.agents[i := Agent(e.run, b)];
  }

  ghost function PcAfter(pc: Pc, d: Drive, attempts: seq<Attempt>): Pc
    requires DrainingTo(pc)
  {
    if d.more then pc else Halted(pc, if CrashedAt(d, attempts) then Crashed else Answered)
  }

  /** Every sequence of attempts is a run of the machine. */
  lemma {:induction false} DriveLeads(s: Sys, i: AgentId, attempts: seq<Attempt>) returns (s': Sys)
    requires i in s.agents && DrainingTo(s.agents[i].pc)
    requires Driven(Drive(s.crm, s.agents[i].store, s.now, true, true), s.agents[i].pc.token, s.refuses, attempts).fair
    ensures var d := Driven(Drive(s.crm, s.agents[i].store, s.now, true, true), s.agents[i].pc.token, s.refuses, attempts);
      Leads(s, s') && DrivenTo(s, s', i, d, PcAfter(s.agents[i].pc, d, attempts))
  {
    hide Leads, StoreAfter, CrmAfter;
    var start := Drive(s.crm, s.agents[i].store, s.now, true, true);
    if |attempts| == 0 {
      LeadsHere(s);
      s' := s;
      assert With(s, i, s.agents[i].store, s.agents[i].pc).agents == s.agents;
    } else {
      var most, a := attempts[..|attempts| - 1], attempts[|attempts| - 1];
      var d := Driven(start, s.agents[i].pc.token, s.refuses, most);
      var t := DriveLeads(s, i, most);
      NextFair(d, s.agents[i].pc.token, s.refuses, a);
      hide Next, Driven, Halted;
      DrivenIs(s, t, i, d);
      s' := AttemptLeads(t, i, a);
      LeadsOn(s, t, s');
      var e := Next(d, s.agents[i].pc.token, s.refuses, a);
      DrivenOn(s, t, s', i, d, e, s.agents[i].pc, if e.more then s.agents[i].pc else Halted(s.agents[i].pc, a.channel));
      HaltedSame(s.agents[i].pc, a.channel);
      assert Driven(start, s.agents[i].pc.token, s.refuses, attempts) == e by { DrivenLast(start, s.agents[i].pc.token, s.refuses, attempts); }
    }
  }

  lemma DrivenLast(d: Drive, token: Token, refuses: Payload -> bool, attempts: seq<Attempt>)
    requires |attempts| > 0
    ensures Driven(d, token, refuses, attempts)
      == Next(Driven(d, token, refuses, attempts[..|attempts| - 1]), token, refuses, attempts[|attempts| - 1])
  {
    hide Next;
  }

  lemma NextFair(d: Drive, token: Token, refuses: Payload -> bool, a: Attempt)
    requires Next(d, token, refuses, a).fair
    ensures d.fair && d.more && Queued(d.run, a.key) && d.now <= a.now && d == Drive(d.crm, d.run, d.now, true, true)
  {
    hide StoreAfter, CrmAfter;
  }

  lemma DrivenIs(s: Sys, t: Sys, i: AgentId, d: Drive)
    requires i in s.agents && DrivenTo(s, t, i, d, s.agents[i].pc)
    ensures i in t.agents && t.agents[i] == Agent(d.run, s.agents[i].pc) && t.crm == d.crm && t.now == d.now && t.refuses == s.refuses
  {
  }

  lemma HaltedSame(pc: Pc, channel: Channel)
    requires DrainingTo(pc)
    ensures Halted(pc, channel) == Halted(pc, if channel == Crashed then Crashed else Answered)
  {
  }

  lemma AttemptLeads(s: Sys, i: AgentId, a: Attempt) returns (s': Sys)
    requires i in s.agents && DrainingTo(s.agents[i].pc) && Queued(s.agents[i].store, a.key) && s.now <= a.now
    ensures var d := Next(Drive(s.crm, s.agents[i].store, s.now, true, true), s.agents[i].pc.token, s.refuses, a);
      && Leads(s, s') && DrivenTo(s, s', i, d, if d.more then s.agents[i].pc else Halted(s.agents[i].pc, a.channel))
  {
    hide Leads, StoreAfter, CrmAfter, Logged, Reserves, Finalizes;
    var t := TimeGoesOn(s, a.now);
    LeadsBy(t, Deliver(i, a.key, a.channel));
    s' := Apply(t, Deliver(i, a.key, a.channel));
    LeadsOn(s, t, s');
  }
}
