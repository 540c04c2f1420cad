/** A coarse view of the steps: most leave every outbox and the CRM's records alone, some queue one message,
    and two submit one message to the CRM. */
module ProtocolSteps {
  import opened Contracts
  import opened CrmSpec
  import opened CrmLaws
  import opened StoreSpec
  import opened StoreLaws
  import opened Delivery
  import opened DeliveryLaws
  import opened Protocol

  /** The CRM's own messages, answers, events and candidates are the same. */
  ghost predicate SameRecords(r: RunId, a: Crm, b: Crm) {
    && (forall k: Key :: k.Owner() == r ==> (k in b.idem <==> k in a.idem) && (k in a.idem ==> b.idem[k] == a.idem[k]))
    && (forall k: Key :: k.Owner() == r ==> (k in b.results <==> k in a.results) && (k in a.results ==> b.results[k] == a.results[k]))
    && b.run.events == a.run.events && b.run.candidates == a.run.candidates && b.run.maxCandidates == a.run.maxCandidates
    && b.run.report == a.run.report && b.run.error == a.run.error
  }

  ghost predicate SameStory(s: Sys, s': Sys) {
    && s'.rid == s.rid && s'.refuses == s.refuses && s'.log == s.log && s'.writes == s.writes
    && s'.written == s.written && s'.finalized == s.finalized
  }

  ghost predicate OthersSame(s: Sys, s': Sys, i: AgentId) {
    s'.agents.Keys == s.agents.Keys && forall j :: j in s.agents && j != i ==> s'.agents[j] == s.agents[j]
  }

  /** A quiet step of worker i: its outbox is untouched and its baseline can only rise to a claim's count. */
  ghost predicate QuietFor(s: Sys, s': Sys, i: AgentId)
    requires i in s.agents && i in s'.agents
  {
    var a, b := s.agents[i], s'.agents[i];
    && SameOutbox(a.store, b.store)
    && b.store.baseline == (if a.pc.Claimed? && !b.pc.Idle? then Max(a.store.baseline, a.pc.claim.candidatesFound) else a.store.baseline)
    && (b.pc.Claimed? ==> b.pc == a.pc || b.pc.claim.candidatesFound == |s.crm.run.candidates|)
  }

  lemma ActorPresent(s: Sys, step: Step)
    requires Enabled(s, step)
    ensures !step.World? ==> step.i in s.agents
  {
  }

  lemma WorldIsQuiet(s: Sys, step: WorldStep)
    requires WorldEnabled(s, step)
    ensures SameStory(s, AfterWorld(s, step)) && SameRecords(s.rid, s.crm, AfterWorld(s, step).crm)
    ensures AfterWorld(s, step).agents == s.agents
  {
  }

  /** The step leaves every other worker alone, and the records of the CRM and the outbox of worker i. */
  ghost predicate QuietStep(s: Sys, s': Sys, i: AgentId)
    requires i in s.agents
  {
    && i in s'.agents && SameStory(s, s') && SameRecords(s.rid, s.crm, s'.crm) && OthersSame(s, s', i) && QuietFor(s, s', i)
  }

  lemma EnsureIsQuiet(s: Sys, i: AgentId)
    requires i in s.agents && s.agents[i].pc.Claimed?
    ensures QuietStep(s, Ensured(s, i), i)
  {
    hide EnsureRun;
    EnsureKeepsOutbox(s.agents[i].store, s.agents[i].pc.claim, Some(i), s.now);
  }

  lemma TakeIsQuiet(s: Sys, i: AgentId, seconds: nat)
    requires CanTake(s, i, seconds)
    ensures QuietStep(s, Took(s, i, seconds), i)
  {
    hide ClaimTask;
    ClaimTaskTakes(s.agents[i].store, i, s.now, seconds);
  }

  lemma GrantIsQuiet(s: Sys, i: AgentId, seconds: nat)
    requires i in s.agents && s.agents[i].pc.Idle?
    ensures QuietStep(s, Granting(s, i, seconds), i)
  {
  }

  lemma BeatIsQuiet(s: Sys, i: AgentId, seconds: nat, pc: Pc)
    requires i in s.agents && s.agents[i].pc.Session? && pc.Session?
    ensures QuietStep(s, Beaten(s, i, seconds, pc), i)
  {
    hide Beat;
    BeatKeepsRecords(s.crm.run, s.agents[i].pc.token, s.now, seconds);
  }

  lemma LeaseIsQuiet(s: Sys, i: AgentId, step: LeaseStep)
    requires LeaseEnabled(s, i, step)
    ensures SameStory(s, AfterLease(s, i, step)) && SameRecords(s.rid, s.crm, AfterLease(s, i, step).crm)
    ensures OthersSame(s, AfterLease(s, i, step), i) && QuietFor(s, AfterLease(s, i, step), i)
  {
    hide Granting, Ensured, Took, Beaten, SameStory, SameRecords, OthersSame, QuietFor, ClaimTask, EnsureRun;
    match step
    case ClaimRun(seconds) => GrantIsQuiet(s, i, seconds);
    case Ensure => EnsureIsQuiet(s, i);
    case TakeTask(seconds) => TakeIsQuiet(s, i, seconds);
    case Renew(seconds) => BeatIsQuiet(s, i, seconds, Session(s.agents[i].pc.token, Ready(s.agents[i].pc.phase.task)));
    case BeatRun(seconds) => BeatIsQuiet(s, i, seconds, s.agents[i].pc);
  }

  lemma BeatKeepsRecords(run: FakeRun, token: Token, now: nat, seconds: nat)
    ensures var after := Beat(run, token, now, seconds); after == run.(lease := after.lease)
  {
  }

  lemma WorkIsQuiet(s: Sys, i: AgentId, step: WorkStep)
    requires WorkEnabled(s, i, step)
    ensures SameStory(s, AfterWork(s, i, step)) && s.crm == AfterWork(s, i, step).crm
    ensures OthersSame(s, AfterWork(s, i, step), i) && QuietFor(s, AfterWork(s, i, step), i)
  {
    hide ClaimTask;
    if step.Pass? { ClaimTaskTakes(s.agents[i].store, i, s.now, step.seconds); }
  }

  /** An execution that found nothing saves no message. */
  lemma EmptySaveIsQuiet(s: Sys, i: AgentId)
    requires i in s.agents && At(s.agents[i].pc, Searching)
    ensures var s' := SavedCandidates(s, i, []);
      SameStory(s, s') && s'.crm == s.crm && OthersSame(s, s', i) && QuietFor(s, s', i)
  {
  }

  // ---------- queueing ----------

  ghost function MessageKey(s: Sys, i: AgentId, step: QueueStep): Key
    requires QueueEnabled(s, i, step)
  {
    match step
    case StartTask => EventKey(s.rid, s.nextEvent)
    case Save(_) => CandidatesKey(s.rid, s.agents[i].pc.phase.exec.task, s.agents[i].pc.phase.exec.attempt)
    case ReportDone(e) => EventKey(s.rid, e.id)
    case ReportFailure(e) => EventKey(s.rid, e.id)
    case NoteCancel => EventKey(s.rid, s.nextEvent)
    case QueueTerminal(status, _) => TerminalKey(s.rid, status)
  }

  ghost function MessageOf(s: Sys, i: AgentId, step: QueueStep): Payload
    requires QueueEnabled(s, i, step)
  {
    match step
    case StartTask => Events([StartedEvent(s.nextEvent, s.agents[i].pc.phase.task)])
    case Save(batch) => Candidates(batch)
    case ReportDone(e) => Events([e])
    case ReportFailure(e) => Events([e])
    case NoteCancel => Events([CancelNote(s.nextEvent)])
    case QueueTerminal(_, payload) => payload
  }

  lemma QueueingPuts(s: Sys, i: AgentId, step: QueueStep)
    requires QueueEnabled(s, i, step) && !(step.Save? && |step.batch| == 0)
    ensures var s' := AfterQueue(s, i, step);
      && s'.crm == s.crm && s'.log == s.log && s'.finalized == s.finalized && s'.rid == s.rid && s'.refuses == s.refuses
      && OthersSame(s, s', i) && s'.agents[i].pc.Session?
      && s'.agents[i].store == Put(s.agents[i].store, MessageKey(s, i, step), MessageOf(s, i, step))
      && (!step.Save? ==> s'.writes == s.writes && s'.written == s.written)
  {
  }

  // ---------- submitting ----------

  /** The CRM is unchanged, or it has just accepted this message, which is not refused, for the first time. */
  ghost predicate Logs(s: Sys, s': Sys, i: AgentId, k: Key, token: Token)
    requires i in s.agents && k in s.agents[i].store.outbox
  {
    var p := s.agents[i].store.outbox[k];
    && OthersSame(s, s', i) && i in s'.agents && Handled(s.agents[i].store, s'.agents[i].store, k)
    && s'.rid == s.rid && s'.refuses == s.refuses && s'.writes == s.writes && s'.written == s.written
    && !s'.agents[i].pc.Claimed?
    && (s'.crm == s.crm ==> s'.log == s.log)
    && (s'.crm != s.crm ==>
          (&& k !in s.crm.idem && !s.refuses(p) && ValidLease(s.crm.run, token, s.now)
           && s'.crm == Submit(s.crm, token, s.now, k, p).0 && s'.crm.idem == s.crm.idem[k := p]
           && s'.log == s.log + [Entry(k, p, Accepted(s'.crm, k, p))]))
  }

  lemma DeliveringLogs(s: Sys, i: AgentId, k: Key, channel: Channel)
    requires CanDeliver(s, i, k)
    ensures Logs(s, Delivered(s, i, k, channel), i, k, s.agents[i].pc.token)
  {
    var a := s.agents[i];
    var p := a.store.outbox[k];
    CrmAfterCases(s.crm, a.pc.token, s.now, k, p, channel, s.refuses(p));
    DeliveryHandles(s.crm, a.store, a.pc.token, s.now, k, channel, s.refuses(p));
  }

  lemma ReplayingLogs(s: Sys, i: AgentId, k: Key, channel: Channel)
    requires CanReplay(s, i, k)
    ensures Logs(s, Replayed(s, i, k, channel), i, k, s.agents[i].store.token.value)
  {
    var a := s.agents[i];
    var p := a.store.outbox[k];
    CrmAfterCases(s.crm, a.store.token.value, s.now, k, p, channel, s.refuses(p));
    ReplayHandles(s.crm, a.store, s.now, k, channel, s.refuses(p));
  }
}
