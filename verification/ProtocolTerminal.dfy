/** Fencing of superseded leases, and agreement on how a run ended. */
module ProtocolTerminal {
  import opened Contracts
  import opened CrmSpec
  import opened CrmLaws
  import opened StoreSpec
  import opened StoreLaws
  import opened Delivery
  import opened DeliveryLaws
  import opened Protocol
  import opened ProtocolSteps
  import Counts = ProtocolCounts

  // ---------- fencing ----------

  ghost predicate Superseded(s: Sys, t: Token) { t < s.nextToken && !Holds(s.crm.run, t) }

  lemma LeaseAfterSubmit(crm: Crm, token: Token, now: nat, k: Key, p: Payload, channel: Channel, refused: bool, t: Token)
    requires Holds(CrmAfter(crm, token, now, k, p, channel, refused).run, t)
    ensures Holds(crm.run, t)
  {
    CrmAfterCases(crm, token, now, k, p, channel, refused);
  }

  /** Only a claim makes a token current, and it makes a fresh one current. */
  lemma LeaseChanges(s: Sys, i: AgentId, l: LeaseStep, t: Token)
    requires LeaseEnabled(s, i, l) && Superseded(s, t)
    ensures Superseded(AfterLease(s, i, l), t)
  {
  }

  lemma QueueChanges(s: Sys, i: AgentId, q: QueueStep)
    requires QueueEnabled(s, i, q)
    ensures AfterQueue(s, i, q).crm == s.crm && AfterQueue(s, i, q).nextToken == s.nextToken && AfterQueue(s, i, q).rid == s.rid
  {
    hide Put, SaveEvent, QueueCandidates;
  }

  lemma DeliverChanges(s: Sys, i: AgentId, k: Key, channel: Channel, t: Token)
    requires CanDeliver(s, i, k) && Superseded(s, t)
    ensures Superseded(Delivered(s, i, k, channel), t)
  {
    var p := s.agents[i].store.outbox[k];
    if Holds(Delivered(s, i, k, channel).crm.run, t) {
      LeaseAfterSubmit(s.crm, s.agents[i].pc.token, s.now, k, p, channel, s.refuses(p), t);
    }
  }

  lemma ReplayChanges(s: Sys, i: AgentId, k: Key, channel: Channel, t: Token)
    requires CanReplay(s, i, k) && Superseded(s, t)
    ensures Superseded(Replayed(s, i, k, channel), t)
  {
    var p := s.agents[i].store.outbox[k];
    if Holds(Replayed(s, i, k, channel).crm.run, t) {
      LeaseAfterSubmit(s.crm, s.agents[i].store.token.value, s.now, k, p, channel, s.refuses(p), t);
    }
  }

  /** A token that is no longer current never becomes current again. */
  lemma SupersededStays(s: Sys, step: Step, t: Token)
    requires Superseded(s, t) && Enabled(s, step)
    ensures Superseded(Apply(s, step), t)
  {
    hide LeaseEnabled, WorkEnabled, QueueEnabled, CanDeliver, CanReplay, AfterLease, AfterQueue, Delivered, Replayed, Worked;
    match step
    case World(_) =>
    case Lease(i, l) => LeaseChanges(s, i, l, t);
    case Work(_, _) =>
    case Queue(i, q) => QueueChanges(s, i, q);
    case Deliver(i, k, channel) => DeliverChanges(s, i, k, channel, t);
    case Replay(i, k, channel) => ReplayChanges(s, i, k, channel, t);
  }

  lemma SupersededForever(s: Sys, steps: seq<Step>, s': Sys, t: Token)
    requires Superseded(s, t) && Runs(s, steps, s')
    ensures Superseded(s', t)
  {
    hide Superseded, Enabled, Apply, Runs;
    forall a, step | Superseded(a, t) && Enabled(a, step) ensures Superseded(Apply(a, step), t) { SupersededStays(a, step, t); }
    RunsKeep(a => Superseded(a, t), s, steps, s');
  }

  /** Once a later claim is granted, in every continuation no heartbeat, event, candidate or new report that
      carries an earlier token has any effect on the CRM. */
  lemma EarlierTokensAreFenced(s: Sys, i: AgentId, seconds: nat, steps: seq<Step>, s': Sys, t: Token, key: Key, p: Payload, again: nat)
    requires LeaseEnabled(s, i, ClaimRun(seconds)) && t < s.nextToken
    requires Runs(AfterLease(s, i, ClaimRun(seconds)), steps, s')
    ensures Submit(s'.crm, t, s'.now, key, p).0 == s'.crm
    ensures Submit(s'.crm, t, s'.now, key, p).1 == (if p.Terminal() && key in s'.crm.idem then
                                                     (if s'.crm.idem[key] == p then Done else Conflict) else LeaseLost)
    ensures Beat(s'.crm.run, t, s'.now, again) == s'.crm.run
  {
    var granted := AfterLease(s, i, ClaimRun(seconds));
    assert Superseded(granted, t);
    SupersededForever(granted, steps, s', t);
  }

  // ---------- the end of a run ----------

  ghost predicate EndKey(s: Sys, k: Key) {
    k.TerminalKey? && k.Owner() == s.rid && k in s.crm.idem
  }

  /** The run shows this message as its end; a cancellation may be requested afterwards. */
  ghost predicate Records(run: FakeRun, p: Payload) {
    && (run.status == RunCancelRequested || run.status == (if p.Complete? then p.report.status else RunFailed))
    && ((p.Complete? && run.report == Some(p.report)) || (p.Fail? && run.error == Some(p.error)))
  }

  ghost predicate Closed(run: FakeRun) {
    run.lease == None && run.status != RunPending && run.status != RunRunning
  }

  /** The run stays ended, and its status changes at most because a cancellation is requested. */
  ghost predicate ClosedAs(a: FakeRun, b: FakeRun) {
    Closed(b) && (b.status == a.status || b.status == RunCancelRequested)
  }

  predicate FinalStatus(status: RunStatus) {
    status == RunCompleted || status == RunPartial || status == RunCancelled || status == RunFailed
  }

  ghost predicate FinalReports(outbox: map<Key, Payload>) {
    forall k :: k in outbox && outbox[k].Complete? ==> FinalStatus(outbox[k].report.status)
  }

  ghost predicate EndsOnce(s: Sys) {
    && (forall k, m :: EndKey(s, k) && EndKey(s, m) ==> k == m)
    && (forall k :: EndKey(s, k) ==> Closed(s.crm.run) && Records(s.crm.run, s.crm.idem[k]))
  }

  ghost predicate Backed(s: Sys, p: Payload) {
    exists k :: EndKey(s, k) && s.crm.idem[k] == p
  }

  ghost predicate FinalizedMeans(s: Sys) {
    forall n :: 0 <= n < |s.finalized| ==> Backed(s, s.finalized[n])
  }

  ghost predicate Inv(s: Sys) {
    && Counts.Inv(s) && EndsOnce(s) && FinalizedMeans(s)
    && forall i :: i in s.agents ==> FinalReports(s.agents[i].store.outbox)
  }

  /** Nothing that the invariant reads has changed, except that the run may be leased again if it has not ended. */
  lemma EndsKept(s: Sys, s': Sys)
    requires EndsOnce(s) && FinalizedMeans(s) && SameRecords(s.rid, s.crm, s'.crm) && SameStory(s, s')
    requires Closed(s.crm.run) ==> ClosedAs(s.crm.run, s'.crm.run)
    ensures EndsOnce(s') && FinalizedMeans(s')
  {
    forall k ensures EndKey(s', k) <==> EndKey(s, k) {}
    forall n | 0 <= n < |s'.finalized| ensures Backed(s', s'.finalized[n]) {
      assert Backed(s, s.finalized[n]);
      var k :| EndKey(s, k) && s.crm.idem[k] == s.finalized[n];
      assert EndKey(s', k);
    }
  }

  lemma WorldSteps(s: Sys, w: WorldStep)
    requires Inv(s) && WorldEnabled(s, w) && Counts.Inv(AfterWorld(s, w))
    ensures Inv(AfterWorld(s, w))
  {
    hide Counts.Inv;
    WorldIsQuiet(s, w);
    EndsKept(s, AfterWorld(s, w));
  }

  lemma LeaseSteps(s: Sys, i: AgentId, l: LeaseStep)
    requires Inv(s) && LeaseEnabled(s, i, l) && Counts.Inv(AfterLease(s, i, l))
    ensures Inv(AfterLease(s, i, l))
  {
    hide Counts.Inv;
    LeaseIsQuiet(s, i, l);
    assert Closed(s.crm.run) ==> ClosedAs(s.crm.run, AfterLease(s, i, l).crm.run);
    hide AfterLease;
    EndsKept(s, AfterLease(s, i, l));
    OutboxKept(s, AfterLease(s, i, l), i);
  }

  lemma OutboxKept(s: Sys, s': Sys, i: AgentId)
    requires i in s.agents && OthersSame(s, s', i) && i in s'.agents
    requires s'.agents[i].store.outbox == s.agents[i].store.outbox
    requires forall j :: j in s.agents ==> FinalReports(s.agents[j].store.outbox)
    ensures forall j :: j in s'.agents ==> FinalReports(s'.agents[j].store.outbox)
  {
    forall j | j in s'.agents ensures FinalReports(s'.agents[j].store.outbox) {
      assert FinalReports(s.agents[j].store.outbox);
    }
  }

  lemma WorkSteps(s: Sys, i: AgentId, w: WorkStep)
    requires Inv(s) && WorkEnabled(s, i, w) && Counts.Inv(AfterWork(s, i, w))
    ensures Inv(AfterWork(s, i, w))
  {
    hide Counts.Inv;
    WorkIsQuiet(s, i, w);
    hide AfterWork;
    EndsKept(s, AfterWork(s, i, w));
    OutboxKept(s, AfterWork(s, i, w), i);
  }

  lemma QueueSteps(s: Sys, i: AgentId, q: QueueStep)
    requires Inv(s) && QueueEnabled(s, i, q) && Counts.Inv(AfterQueue(s, i, q))
    ensures Inv(AfterQueue(s, i, q))
  {
    hide Counts.Inv;
    var s' := AfterQueue(s, i, q);
    if q == Save([]) {
      EmptySaveIsQuiet(s, i);
      OutboxKept(s, s', i);
      hide AfterQueue;
      EndsKept(s, s');
    } else {
      QueueingPuts(s, i, q);
      assert MessageOf(s, i, q).Complete? ==> FinalStatus(MessageOf(s, i, q).report.status);
      hide AfterQueue, MessageOf, MessageKey;
      QueueEnds(s, s', i, MessageKey(s, i, q), MessageOf(s, i, q));
    }
  }

  lemma QueueEnds(s: Sys, s': Sys, i: AgentId, k: Key, p: Payload)
    requires Inv(s) && Counts.Inv(s') && i in s.agents && i in s'.agents && OthersSame(s, s', i)
    requires s'.crm == s.crm && s'.finalized == s.finalized && s'.rid == s.rid
    requires s'.agents[i].store == Put(s.agents[i].store, k, p) && (p.Complete? ==> FinalStatus(p.report.status))
    ensures Inv(s')
  {
    hide Counts.Inv;
    forall k ensures EndKey(s', k) <==> EndKey(s, k) {}
    forall n | 0 <= n < |s'.finalized| ensures Backed(s', s'.finalized[n]) {
      assert Backed(s, s.finalized[n]);
      var k :| EndKey(s, k) && s.crm.idem[k] == s.finalized[n];
      assert EndKey(s', k);
    }
    forall j | j in s'.agents ensures FinalReports(s'.agents[j].store.outbox) {
      assert FinalReports(s.agents[j].store.outbox);
    }
  }

  // ---------- submitting ----------

  /** A message accepted for the first time finds the run still open; a terminal one closes it. */
  lemma SubmitEnds(s: Sys, s': Sys, i: AgentId, k: Key, token: Token)
    requires EndsOnce(s) && i in s.agents && k in s.agents[i].store.outbox && Logs(s, s', i, k, token)
    requires FinalReports(s.agents[i].store.outbox)
    requires k.Owner() == s.rid && (s.agents[i].store.outbox[k].Terminal() <==> k.TerminalKey?)
    ensures EndsOnce(s')
    ensures forall m :: EndKey(s, m) ==> EndKey(s', m) && s'.crm.idem[m] == s.crm.idem[m]
  {
    var p := s.agents[i].store.outbox[k];
    if s'.crm != s.crm {
      forall m ensures !EndKey(s, m) && (EndKey(s', m) ==> m == k) {}
      if k.TerminalKey? {
        assert s'.crm.run == Ended(s.crm.run, p);
        assert p.Complete? ==> FinalStatus(p.report.status);
      }
    }
  }

  ghost predicate FinalizedGrows(s: Sys, s': Sys, p: Payload, k: Key) {
    s'.finalized == s.finalized
    || (s'.finalized == s.finalized + [p] && k in s'.crm.idem && s'.crm.idem[k] == p && k.TerminalKey? && k.Owner() == s.rid)
  }

  lemma SubmitFinalizes(s: Sys, s': Sys, p: Payload, k: Key)
    requires FinalizedMeans(s) && FinalizedGrows(s, s', p, k) && s'.rid == s.rid
    requires forall m :: EndKey(s, m) ==> EndKey(s', m) && s'.crm.idem[m] == s.crm.idem[m]
    ensures FinalizedMeans(s')
  {
    forall n | 0 <= n < |s'.finalized| ensures Backed(s', s'.finalized[n]) {
      if n < |s.finalized| {
        assert Backed(s, s.finalized[n]);
        var m :| EndKey(s, m) && s.crm.idem[m] == s.finalized[n];
        assert EndKey(s', m);
      } else {
        assert EndKey(s', k);
      }
    }
  }

  lemma SubmitReports(s: Sys, s': Sys, i: AgentId, k: Key)
    requires i in s.agents && i in s'.agents && OthersSame(s, s', i)
    requires Handled(s.agents[i].store, s'.agents[i].store, k)
    requires forall j :: j in s.agents ==> FinalReports(s.agents[j].store.outbox)
    requires forall m :: m in s'.agents[i].store.outbox && m !in s.agents[i].store.outbox ==> s'.agents[i].store.outbox[m].Candidates?
    ensures forall j :: j in s'.agents ==> FinalReports(s'.agents[j].store.outbox)
  {
    forall j | j in s'.agents ensures FinalReports(s'.agents[j].store.outbox) {
      assert FinalReports(s.agents[j].store.outbox);
    }
  }

  lemma SubmitSteps(s: Sys, s': Sys, i: AgentId, k: Key, token: Token)
    requires Inv(s) && Counts.Inv(s') && i in s.agents && k in s.agents[i].store.outbox && Logs(s, s', i, k, token)
    requires FinalizedGrows(s, s', s.agents[i].store.outbox[k], k)
    requires forall m :: m in s'.agents[i].store.outbox && m !in s.agents[i].store.outbox ==> s'.agents[i].store.outbox[m].Candidates?
    ensures Inv(s')
  {
    ProperMessage(s, i, k);
    assert FinalReports(s.agents[i].store.outbox);
    hide Counts.Inv, Submit, EndsOnce, FinalizedMeans, FinalReports, EndKey, FinalizedGrows;
    SubmitEnds(s, s', i, k, token);
    SubmitReports(s, s', i, k);
    hide Logs;
    SubmitFinalizes(s, s', s.agents[i].store.outbox[k], k);
  }

  lemma ProperMessage(s: Sys, i: AgentId, k: Key)
    requires Counts.Inv(s) && i in s.agents && k in s.agents[i].store.outbox
    ensures k.Owner() == s.rid && (s.agents[i].store.outbox[k].Terminal() <==> k.TerminalKey?)
  {
    assert Counts.AgentCounts(s, s.agents[i]);
    assert Counts.Proper(s.rid, s.written, k, s.agents[i].store.outbox[k]);
  }

  lemma DeliverFinalizes(s: Sys, i: AgentId, k: Key, channel: Channel)
    requires CanDeliver(s, i, k) && k.Owner() == s.rid && (s.agents[i].store.outbox[k].Terminal() <==> k.TerminalKey?)
    ensures FinalizedGrows(s, Delivered(s, i, k, channel), s.agents[i].store.outbox[k], k)
  {
    var a, p := s.agents[i], s.agents[i].store.outbox[k];
    DeliveryCounts(s.crm, a.store, a.pc.token, s.now, k, channel, s.refuses(p));
    SubmitCases(s.crm, a.pc.token, s.now, k, p);
    hide StoreAfter, Submit;
  }

  lemma DeliverAdds(s: Sys, i: AgentId, k: Key, channel: Channel)
    requires CanDeliver(s, i, k)
    ensures forall m :: m in Delivered(s, i, k, channel).agents[i].store.outbox && m !in s.agents[i].store.outbox ==>
              Delivered(s, i, k, channel).agents[i].store.outbox[m].Candidates?
  {
    var a, p := s.agents[i], s.agents[i].store.outbox[k];
    forall m | m in Delivered(s, i, k, channel).agents[i].store.outbox && m !in a.store.outbox
      ensures Delivered(s, i, k, channel).agents[i].store.outbox[m].Candidates?
    {
      DeliverySplits(s.crm, a.store, a.pc.token, s.now, k, channel, s.refuses(p), m);
    }
  }

  lemma ReplayFinalizes(s: Sys, i: AgentId, k: Key, channel: Channel)
    requires CanReplay(s, i, k) && k.Owner() == s.rid && (s.agents[i].store.outbox[k].Terminal() <==> k.TerminalKey?)
    ensures FinalizedGrows(s, Replayed(s, i, k, channel), s.agents[i].store.outbox[k], k)
    ensures forall m :: m in Replayed(s, i, k, channel).agents[i].store.outbox ==> m in s.agents[i].store.outbox
  {
    var a, p := s.agents[i], s.agents[i].store.outbox[k];
    ReplayCounts(s.crm, a.store, s.now, k, channel, s.refuses(p));
    SubmitCases(s.crm, a.store.token.value, s.now, k, p);
  }

  lemma DeliverSteps(s: Sys, i: AgentId, k: Key, channel: Channel)
    requires Inv(s) && CanDeliver(s, i, k) && Counts.Inv(Delivered(s, i, k, channel))
    ensures Inv(Delivered(s, i, k, channel))
  {
    ProperMessage(s, i, k);
    DeliverFinalizes(s, i, k, channel);
    DeliverAdds(s, i, k, channel);
    DeliveringLogs(s, i, k, channel);
    hide Inv, Counts.Inv, Delivered;
    SubmitSteps(s, Delivered(s, i, k, channel), i, k, s.agents[i].pc.token);
  }

  lemma ReplaySteps(s: Sys, i: AgentId, k: Key, channel: Channel)
    requires Inv(s) && CanReplay(s, i, k) && Counts.Inv(Replayed(s, i, k, channel))
    ensures Inv(Replayed(s, i, k, channel))
  {
    ProperMessage(s, i, k);
    ReplayFinalizes(s, i, k, channel);
    ReplayingLogs(s, i, k, channel);
    hide Inv, Counts.Inv, Replayed;
    SubmitSteps(s, Replayed(s, i, k, channel), i, k, s.agents[i].store.token.value);
  }

  // ---------- every run ----------

  lemma StepKeeps(s: Sys, step: Step)
    requires Inv(s) && Enabled(s, step)
    ensures Inv(Apply(s, step))
  {
    assert Counts.Inv(s);
    hide Inv, Counts.Inv, WorldEnabled, LeaseEnabled, WorkEnabled, QueueEnabled, CanDeliver, CanReplay, AfterWorld, AfterLease,
      AfterWork, AfterQueue, Delivered, Replayed;
    Counts.StepKeeps(s, step);
    match step
    case World(w) => WorldSteps(s, w);
    case Lease(i, l) => LeaseSteps(s, i, l);
    case Work(i, w) => WorkSteps(s, i, w);
    case Queue(i, q) => QueueSteps(s, i, q);
    case Deliver(i, k, channel) => DeliverSteps(s, i, k, channel);
    case Replay(i, k, channel) => ReplaySteps(s, i, k, channel);
  }

  lemma InitInv(s: Sys)
    requires Init(s)
    ensures Inv(s)
  {
    Counts.InitInv(s);
    hide Counts.Inv;
  }

  lemma ReachableInv(s: Sys)
    requires Reachable(s)
    ensures Inv(s)
  {
    hide Inv, Init, Enabled, Apply, Reachable;
    forall t | Init(t) ensures Inv(t) { InitInv(t); }
    forall t, step | Inv(t) && Enabled(t, step) ensures Inv(Apply(t, step)) { StepKeeps(t, step); }
    ReachableKeep(Inv, s);
  }

  /** At most one terminal message of a run is ever accepted, and it is what the CRM reports. */
  lemma OneTerminalMessage(s: Sys, k: Key, m: Key)
    requires Reachable(s) && EndKey(s, k) && EndKey(s, m)
    ensures k == m && Records(s.crm.run, s.crm.idem[k])
  {
    ReachableInv(s);
    hide Counts.Inv;
  }

  /** Whatever a worker recorded as the delivered report, directly or by a replay, is the CRM's report. */
  lemma FinalizedIsReported(s: Sys, n: nat)
    requires Reachable(s) && n < |s.finalized|
    ensures Records(s.crm.run, s.finalized[n])
    ensures forall m :: 0 <= m < |s.finalized| ==> s.finalized[m] == s.finalized[n]
  {
    ReachableInv(s);
    hide Counts.Inv;
    assert Backed(s, s.finalized[n]);
    var k :| EndKey(s, k) && s.crm.idem[k] == s.finalized[n];
    forall m | 0 <= m < |s.finalized| ensures s.finalized[m] == s.finalized[n] {
      assert Backed(s, s.finalized[m]);
      var l :| EndKey(s, l) && s.crm.idem[l] == s.finalized[m];
    }
  }

  ghost predicate SameResult(a: FakeRun, b: FakeRun) {
    b.events == a.events && b.candidates == a.candidates && b.report == a.report && b.error == a.error
  }

  lemma EndedLease(s: Sys, i: AgentId, l: LeaseStep)
    requires Closed(s.crm.run) && LeaseEnabled(s, i, l)
    ensures AfterLease(s, i, l).crm == s.crm && AfterLease(s, i, l).rid == s.rid
  {
  }

  /** After the end a step can only be a cancellation request, or it leaves the run exactly as it is. */
  lemma EndedStep(s: Sys, step: Step, k: Key)
    requires EndsOnce(s) && EndKey(s, k) && Enabled(s, step)
    ensures step != World(RequestCancel) ==> Apply(s, step).crm.run == s.crm.run
    ensures SameResult(s.crm.run, Apply(s, step).crm.run)
    ensures EndKey(Apply(s, step), k)
  {
    assert Closed(s.crm.run);
    hide EndsOnce, LeaseEnabled, WorkEnabled, QueueEnabled, AfterLease, AfterWork, AfterQueue, Delivered, Replayed, Worked, Submit, Logs;
    match step
    case World(w) => WorldIsQuiet(s, w);
    case Lease(i, l) => EndedLease(s, i, l);
    case Work(i, w) => WorkIsQuiet(s, i, w);
    case Queue(i, q) => QueueChanges(s, i, q);
    case Deliver(i, m, channel) =>
      DeliveringLogs(s, i, m, channel);
      EndedMessage(s, Delivered(s, i, m, channel), i, m, s.agents[i].pc.token);
    case Replay(i, m, channel) =>
      ReplayingLogs(s, i, m, channel);
      EndedMessage(s, Replayed(s, i, m, channel), i, m, s.agents[i].store.token.value);
  }

  lemma EndedMessage(s: Sys, s': Sys, i: AgentId, k: Key, token: Token)
    requires Closed(s.crm.run) && i in s.agents && k in s.agents[i].store.outbox && Logs(s, s', i, k, token)
    ensures s'.crm == s.crm && s'.rid == s.rid
  {
  }

  /** The run has ended with this result. */
  ghost predicate EndedAs(s: Sys, k: Key, run: FakeRun) {
    Inv(s) && EndKey(s, k) && SameResult(run, s.crm.run)
  }

  lemma EndedStays(s: Sys, step: Step, k: Key, run: FakeRun)
    requires EndedAs(s, k, run) && Enabled(s, step)
    ensures EndedAs(Apply(s, step), k, run)
  {
    assert EndsOnce(s);
    hide Inv, Enabled, Apply, EndsOnce;
    EndedStep(s, step, k);
    StepKeeps(s, step);
  }

  lemma EndedMeans(s: Sys, k: Key, run: FakeRun)
    requires EndedAs(s, k, run)
    ensures SameResult(run, s.crm.run)
  {
  }

  /** Once a terminal message is accepted, in every continuation the run's events, candidates and report stay. */
  lemma EndIsFinal(s: Sys, steps: seq<Step>, s': Sys, k: Key)
    requires Reachable(s) && EndKey(s, k) && Runs(s, steps, s')
    ensures SameResult(s.crm.run, s'.crm.run)
  {
    ReachableInv(s);
    hide Inv, Enabled, Apply, Runs, Reachable;
    assert EndedAs(s, k, s.crm.run);
    var run := s.crm.run;
    hide EndedAs;
    forall a, step | EndedAs(a, k, run) && Enabled(a, step) ensures EndedAs(Apply(a, step), k, run) { EndedStays(a, step, k, run); }
    RunsKeep(a => EndedAs(a, k, run), s, steps, s');
    EndedMeans(s', k, run);
  }
}
