/** Every accepted message takes effect once, and the two sides agree on how many candidates there are. */
module ProtocolCounts {
  import opened Contracts
  import opened CrmSpec
  import opened CrmLaws
  import opened StoreSpec
  import opened StoreLaws
  import opened Delivery
  import opened DeliveryLaws
  import opened Protocol
  import opened ProtocolSteps
  import Keys = ProtocolKeys

  // ---------- the batch a candidates key stands for ----------

  /** The batch saved under the root key, halved once for each split. */
  ghost function BatchOf(written: map<Key, seq<Candidate>>, k: Key): Option<seq<Candidate>> {
    match k
    case SplitKey(parent, half) =>
      var b := BatchOf(written, parent);
      if b.Some? then Some(Half(b.value, half)) else None
    case _ => if k in written then Some(written[k]) else None
  }

  lemma {:induction false} BatchOfKept(written: map<Key, seq<Candidate>>, k: Key, root: Key, batch: seq<Candidate>)
    requires BatchOf(written, k).Some? && root !in written
    ensures BatchOf(written[root := batch], k) == BatchOf(written, k)
  {
    if k.SplitKey? { BatchOfKept(written, k.parent, root, batch); }
  }

  /** A message of this run: candidates payloads exactly under candidates keys, with the batch of the key. */
  ghost predicate Proper(r: RunId, written: map<Key, seq<Candidate>>, k: Key, p: Payload) {
    && k.Owner() == r && (p.Candidates? <==> k.ForCandidates())
    && (p.Candidates? ==> BatchOf(written, k) == Some(p.batch))
    && (p.Terminal() <==> k.TerminalKey?)
  }

  ghost predicate ProperOutbox(r: RunId, written: map<Key, seq<Candidate>>, outbox: map<Key, Payload>) {
    forall k :: k in outbox ==> Proper(r, written, k, outbox[k])
  }

  ghost predicate ProperLog(r: RunId, written: map<Key, seq<Candidate>>, log: seq<Entry>) {
    forall n :: 0 <= n < |log| ==> Proper(r, written, log[n].key, log[n].payload)
  }

  // ---------- sums over the log ----------

  /** The acknowledged candidates of the logged messages whose keys are in `keys`. */
  function AckSum(log: seq<Entry>, keys: set<Key>): nat {
    if |log| == 0 then 0
    else AckSum(log[..|log| - 1], keys) + if log[|log| - 1].key in keys then log[|log| - 1].accepted else 0
  }

  function Total(log: seq<Entry>): nat {
    if |log| == 0 then 0 else Total(log[..|log| - 1]) + log[|log| - 1].accepted
  }

  ghost predicate InLog(log: seq<Entry>, k: Key) {
    exists n :: 0 <= n < |log| && log[n].key == k
  }

  ghost predicate OneEach(log: seq<Entry>) {
    forall m, n :: 0 <= m < n < |log| ==> log[m].key != log[n].key
  }

  lemma {:induction false} AckSumOther(log: seq<Entry>, keys: set<Key>, k: Key)
    requires !InLog(log, k) || k in keys
    ensures AckSum(log, keys + {k}) == AckSum(log, keys)
  {
    if |log| > 0 {
      var most := log[..|log| - 1];
      if InLog(most, k) {
        var n :| 0 <= n < |most| && most[n].key == k;
        assert log[n].key == k;
      }
      if k !in keys { assert log[|log| - 1].key != k; }
      AckSumOther(most, keys, k);
    }
  }

  lemma {:induction false} AckSumAdds(log: seq<Entry>, keys: set<Key>, n: nat)
    requires n < |log| && OneEach(log) && log[n].key !in keys
    ensures AckSum(log, keys + {log[n].key}) == AckSum(log, keys) + log[n].accepted
  {
    var most, last := log[..|log| - 1], log[|log| - 1];
    if n == |log| - 1 {
      AckSumOther(most, keys, last.key);
    } else {
      assert most[n] == log[n];
      AckSumAdds(most, keys, n);
    }
  }

  lemma AckSumExtends(log: seq<Entry>, keys: set<Key>, e: Entry)
    ensures AckSum(log + [e], keys) == AckSum(log, keys) + if e.key in keys then e.accepted else 0
    ensures Total(log + [e]) == Total(log) + e.accepted
  {
    assert (log + [e])[..|log|] == log;
  }

  lemma {:induction false} AckSumAll(log: seq<Entry>, keys: set<Key>)
    requires forall n :: 0 <= n < |log| ==> log[n].key in keys || log[n].accepted == 0
    ensures AckSum(log, keys) == Total(log)
  {
    if |log| > 0 { AckSumAll(log[..|log| - 1], keys); }
  }

  // ---------- what the log rebuilds ----------

  ghost function EventsOf(log: seq<Entry>): seq<RunEvent> {
    if |log| == 0 then []
    else
      var p := log[|log| - 1].payload;
      EventsOf(log[..|log| - 1]) + if p.Events? then p.events else []
  }

  ghost function CandidatesOf(log: seq<Entry>, cap: nat): map<CandidateKey, Candidate> {
    if |log| == 0 then map[]
    else
      var p := log[|log| - 1].payload;
      var held := CandidatesOf(log[..|log| - 1], cap);
      if p.Candidates? then UpsertAll(held, p.batch, cap).held else held
  }

  // ---------- the invariant ----------

  /** The log lists exactly the run's keys that the CRM knows, once each, with their payloads and answers. */
  ghost predicate LogIsIdem(s: Sys) {
    && OneEach(s.log)
    && (forall k: Key :: k.Owner() == s.rid ==> (k in s.crm.idem <==> InLog(s.log, k)))
    && (forall n :: 0 <= n < |s.log| ==>
          && s.log[n].key in s.crm.idem && s.crm.idem[s.log[n].key] == s.log[n].payload && !s.refuses(s.log[n].payload)
          && s.log[n].accepted == Accepted(s.crm, s.log[n].key, s.log[n].payload)
          && (s.log[n].payload.Candidates? ==> s.log[n].key in s.crm.results))
  }

  ghost predicate LogIsState(s: Sys) {
    && s.crm.run.events == EventsOf(s.log)
    && s.crm.run.candidates == CandidatesOf(s.log, s.crm.run.maxCandidates)
    && Total(s.log) == |s.crm.run.candidates| <= s.crm.run.maxCandidates
    && (forall k: Key :: k.Owner() == s.rid && k in s.crm.results ==> s.crm.results[k].found.Some? && s.crm.results[k].found.value <= |s.crm.run.candidates|)
  }

  ghost predicate WrittenOnce(s: Sys) {
    forall k :: k in s.written ==>
      exists n :: 0 <= n < |s.writes| && k == CandidatesKey(s.rid, s.writes[n].task, s.writes[n].attempt)
  }

  /** A message is marked delivered only if the CRM accepted it, or refused it as a batch of candidates. */
  ghost predicate DeliveredMeans(s: Sys, store: MemoryRun) {
    forall k :: k in store.delivered ==>
      k in store.outbox && (k in s.crm.idem || (store.outbox[k].Candidates? && s.refuses(store.outbox[k])))
  }

  ghost predicate AgentCounts(s: Sys, a: Agent) {
    && ProperOutbox(s.rid, s.written, a.store.outbox) && DeliveredMeans(s, a.store)
    && a.store.crmAccepted == AckSum(s.log, a.store.delivered)
    && a.store.baseline <= |s.crm.run.candidates| && a.store.cap == s.crm.run.maxCandidates
    && (a.pc.Claimed? ==> a.pc.claim.candidatesFound <= |s.crm.run.candidates|)
  }

  ghost predicate Inv(s: Sys) {
    && Keys.Inv(s) && LogIsIdem(s) && LogIsState(s) && WrittenOnce(s) && ProperLog(s.rid, s.written, s.log)
    && forall i :: i in s.agents ==> AgentCounts(s, s.agents[i])
  }

  ghost predicate History(s: Sys) {
    LogIsIdem(s) && LogIsState(s) && WrittenOnce(s) && ProperLog(s.rid, s.written, s.log)
  }

  // ---------- quiet steps ----------

  lemma QuietHistory(s: Sys, s': Sys)
    requires History(s) && SameStory(s, s') && SameRecords(s.rid, s.crm, s'.crm)
    ensures History(s')
  {
    forall n | 0 <= n < |s.log| ensures s.log[n].key in s'.crm.idem && s.log[n].key.Owner() == s.rid {
      assert Proper(s.rid, s.written, s.log[n].key, s.log[n].payload);
    }
    assert LogIsIdem(s');
  }

  lemma QuietAgent(s: Sys, s': Sys, a: Agent, b: Agent)
    requires AgentCounts(s, a) && SameStory(s, s') && SameRecords(s.rid, s.crm, s'.crm) && SameOutbox(a.store, b.store)
    requires b.store.baseline <= |s.crm.run.candidates|
    requires b.pc.Claimed? ==> b.pc.claim.candidatesFound <= |s.crm.run.candidates|
    ensures AgentCounts(s', b)
  {
  }

  lemma QuietSteps(s: Sys, s': Sys, i: AgentId)
    requires Inv(s) && i in s.agents && i in s'.agents && Keys.Inv(s') && SameStory(s, s') && SameRecords(s.rid, s.crm, s'.crm)
    requires OthersSame(s, s', i) && QuietFor(s, s', i)
    ensures Inv(s')
  {
    hide Keys.Inv;
    QuietHistory(s, s');
    assert AgentCounts(s, s.agents[i]);
    forall j | j in s'.agents ensures AgentCounts(s', s'.agents[j]) {
      QuietAgent(s, s', s.agents[j], s'.agents[j]);
    }
  }

  lemma WorldSteps(s: Sys, s': Sys)
    requires Inv(s) && Keys.Inv(s') && SameStory(s, s') && SameRecords(s.rid, s.crm, s'.crm) && s'.agents == s.agents
    ensures Inv(s')
  {
    hide Keys.Inv;
    QuietHistory(s, s');
    forall j | j in s'.agents ensures AgentCounts(s', s'.agents[j]) {
      QuietAgent(s, s', s.agents[j], s'.agents[j]);
    }
  }

  // ---------- queueing ----------

  /** The key of a batch being saved was never written before. */
  lemma SavedKeyIsNew(s: Sys, i: AgentId, batch: seq<Candidate>)
    requires WrittenOnce(s) && i in s.agents && At(s.agents[i].pc, Searching) && |batch| > 0
    requires Keys.Inv(SavedCandidates(s, i, batch))
    ensures var x := s.agents[i].pc.phase.exec; CandidatesKey(s.rid, x.task, x.attempt) !in s.written
  {
    var s' := SavedCandidates(s, i, batch);
    var x := s.agents[i].pc.phase.exec;
    var k := CandidatesKey(s.rid, x.task, x.attempt);
    if k in s.written {
      var n :| 0 <= n < |s.writes| && k == CandidatesKey(s.rid, s.writes[n].task, s.writes[n].attempt);
      assert s'.writes[n] == s.writes[n] && s'.writes[|s.writes|] == x;
      Keys.KeysDiffer(s', n, |s.writes|);
    }
  }

  ghost predicate Extends(s: Sys, s': Sys, root: Key, batch: seq<Candidate>) {
    s'.written == s.written || (root !in s.written && s'.written == s.written[root := batch])
  }

  lemma ProperKept(r: RunId, a: map<Key, seq<Candidate>>, b: map<Key, seq<Candidate>>, root: Key, batch: seq<Candidate>, k: Key, p: Payload)
    requires Proper(r, a, k, p) && (b == a || (root !in a && b == a[root := batch]))
    ensures Proper(r, b, k, p)
  {
    if b != a && p.Candidates? { BatchOfKept(a, k, root, batch); }
  }

  lemma QueueHistory(s: Sys, s': Sys, root: Key, batch: seq<Candidate>)
    requires History(s) && Extends(s, s', root, batch) && WrittenOnce(s')
    requires s'.crm == s.crm && s'.log == s.log && s'.rid == s.rid && s'.refuses == s.refuses
    ensures History(s')
  {
    forall n | 0 <= n < |s.log| ensures Proper(s.rid, s'.written, s.log[n].key, s.log[n].payload) {
      ProperKept(s.rid, s.written, s'.written, root, batch, s.log[n].key, s.log[n].payload);
    }
    assert LogIsIdem(s') && LogIsState(s');
  }

  lemma QueueAgent(s: Sys, s': Sys, a: Agent, root: Key, batch: seq<Candidate>)
    requires AgentCounts(s, a) && Extends(s, s', root, batch)
    requires s'.crm == s.crm && s'.log == s.log && s'.rid == s.rid
    requires s'.refuses == s.refuses
    ensures AgentCounts(s', a)
  {
    forall k | k in a.store.outbox ensures Proper(s.rid, s'.written, k, a.store.outbox[k]) {
      ProperKept(s.rid, s.written, s'.written, root, batch, k, a.store.outbox[k]);
    }
  }

  lemma PutAgent(s: Sys, a: Agent, b: Agent, k: Key, p: Payload)
    requires AgentCounts(s, a) && Proper(s.rid, s.written, k, p) && b.store == Put(a.store, k, p) && !b.pc.Claimed?
    requires k in a.store.outbox && k in a.store.delivered ==> k in s.crm.idem
    ensures AgentCounts(s, b)
  {
  }

  lemma PutIsNew(s: Sys, a: Agent, k: Key)
    requires AgentCounts(s, a) && (k.ForCandidates() ==> k.CandidatesKey? && k !in s.written)
    ensures k in a.store.delivered ==> k in s.crm.idem
  {
    if k in a.store.delivered { assert Proper(s.rid, s.written, k, a.store.outbox[k]); }
  }

  lemma QueueSteps(s: Sys, i: AgentId, step: QueueStep)
    requires Inv(s) && QueueEnabled(s, i, step) && Keys.Inv(AfterQueue(s, i, step))
    requires !(step.Save? && |step.batch| == 0)
    ensures Inv(AfterQueue(s, i, step))
  {
    hide Keys.Inv;
    var s', k, p := AfterQueue(s, i, step), MessageKey(s, i, step), MessageOf(s, i, step);
    QueueingPuts(s, i, step);
    var batch := if step.Save? then step.batch else [];
    QueueWrites(s, i, step);
    QueueHistory(s, s', k, batch);
    forall j | j in s'.agents ensures AgentCounts(s', s'.agents[j]) {
      QueueAgent(s, s', s.agents[j], k, batch);
      if j == i {
        PutIsNew(s, s.agents[i], k);
        PutAgent(s', s.agents[i], s'.agents[i], k, p);
      }
    }
  }

  lemma QueueWrites(s: Sys, i: AgentId, step: QueueStep)
    requires WrittenOnce(s) && QueueEnabled(s, i, step) && Keys.Inv(AfterQueue(s, i, step))
    requires !(step.Save? && |step.batch| == 0)
    ensures Extends(s, AfterQueue(s, i, step), MessageKey(s, i, step), if step.Save? then step.batch else [])
    ensures WrittenOnce(AfterQueue(s, i, step))
    ensures MessageKey(s, i, step).ForCandidates() ==> MessageKey(s, i, step) !in s.written
    ensures Proper(s.rid, AfterQueue(s, i, step).written, MessageKey(s, i, step), MessageOf(s, i, step))
  {
    hide Keys.Inv;
    var s' := AfterQueue(s, i, step);
    if step.Save? {
      SavedKeyIsNew(s, i, step.batch);
      assert s'.writes[|s.writes|] == s.agents[i].pc.phase.exec;
      forall k | k in s'.written
        ensures exists n :: 0 <= n < |s'.writes| && k == CandidatesKey(s'.rid, s'.writes[n].task, s'.writes[n].attempt)
      {
        if k in s.written {
          var n :| 0 <= n < |s.writes| && k == CandidatesKey(s.rid, s.writes[n].task, s.writes[n].attempt);
          assert s'.writes[n] == s.writes[n];
        }
      }
    }
  }

  // ---------- submitting ----------

  lemma InLogExtends(log: seq<Entry>, e: Entry, k: Key)
    ensures InLog(log + [e], k) <==> InLog(log, k) || k == e.key
  {
    if k == e.key { assert (log + [e])[|log|].key == k; }
    if InLog(log, k) {
      var n :| 0 <= n < |log| && log[n].key == k;
      assert (log + [e])[n].key == k;
    }
    if InLog(log + [e], k) && k != e.key {
      var n :| 0 <= n < |log + [e]| && (log + [e])[n].key == k;
      assert log[n].key == k;
    }
  }

  lemma LogGrows(s: Sys, s': Sys, k: Key, p: Payload, token: Token)
    requires History(s) && Proper(s.rid, s.written, k, p) && k !in s.crm.idem && !s.refuses(p)
    requires ValidLease(s.crm.run, token, s.now) && s'.crm == Submit(s.crm, token, s.now, k, p).0
    requires s'.rid == s.rid && s'.refuses == s.refuses && s'.log == s.log + [Entry(k, p, Accepted(s'.crm, k, p))]
    ensures LogIsIdem(s')
  {
    SubmitCases(s.crm, token, s.now, k, p);
    SubmitGrows(s.rid, s.crm, token, s.now, k, p);
    assert k in s'.crm.idem;
    hide Submit, EventsOf, CandidatesOf, Total, LogIsState, WrittenOnce;
    assert !InLog(s.log, k);
    forall m: Key | m.Owner() == s.rid ensures m in s'.crm.idem <==> InLog(s'.log, m) {
      InLogExtends(s.log, Entry(k, p, Accepted(s'.crm, k, p)), m);
    }
    hide InLog;
    forall n | 0 <= n < |s.log|
      ensures s.log[n].key in s'.crm.idem && s'.crm.idem[s.log[n].key] == s.log[n].payload
      ensures s.log[n].accepted == Accepted(s'.crm, s.log[n].key, s.log[n].payload)
    {
      assert Proper(s.rid, s.written, s.log[n].key, s.log[n].payload);
    }
  }

  lemma StateGrows(s: Sys, s': Sys, k: Key, p: Payload, token: Token)
    requires History(s) && k !in s.crm.idem
    requires ValidLease(s.crm.run, token, s.now) && s'.crm == Submit(s.crm, token, s.now, k, p).0
    requires s'.rid == s.rid && s'.log == s.log + [Entry(k, p, Accepted(s'.crm, k, p))]
    ensures LogIsState(s') && |s.crm.run.candidates| <= |s'.crm.run.candidates|
  {
    var e := Entry(k, p, Accepted(s'.crm, k, p));
    assert s'.log[..|s.log|] == s.log;
    AckSumExtends(s.log, {}, e);
    match p
    case Candidates(batch) => UpsertCounts(s.crm.run.candidates, batch, s.crm.run.maxCandidates);
    case Events(_) =>
    case Complete(_) =>
    case Fail(_) =>
  }

  lemma SubmitHistory(s: Sys, s': Sys, i: AgentId, k: Key, token: Token)
    requires History(s) && i in s.agents && k in s.agents[i].store.outbox && Logs(s, s', i, k, token)
    requires Proper(s.rid, s.written, k, s.agents[i].store.outbox[k])
    ensures History(s') && |s.crm.run.candidates| <= |s'.crm.run.candidates|
    ensures s'.crm.run.maxCandidates == s.crm.run.maxCandidates
  {
    var p := s.agents[i].store.outbox[k];
    if s'.crm == s.crm {
      hide Handled, OthersSame, Submit, ValidLease;
      SameHistory(s, s');
    } else {
      hide Handled, OthersSame, Proper, WrittenOnce;
      LogGrows(s, s', k, p, token);
      StateGrows(s, s', k, p, token);
      SubmitGrows(s.rid, s.crm, token, s.now, k, p);
      hide LogIsIdem, LogIsState, Submit, ValidLease;
      SameWritten(s, s');
      ProperGrows(s.rid, s.written, s.log, Entry(k, p, Accepted(s'.crm, k, p)));
    }
  }

  lemma SameHistory(s: Sys, s': Sys)
    requires History(s) && s'.crm == s.crm && s'.log == s.log && s'.rid == s.rid && s'.refuses == s.refuses
    requires s'.writes == s.writes && s'.written == s.written
    ensures History(s')
  {
    hide EventsOf, CandidatesOf, Total, Proper, InLog;
  }

  lemma SameWritten(s: Sys, s': Sys)
    requires WrittenOnce(s) && s'.rid == s.rid && s'.writes == s.writes && s'.written == s.written
    ensures WrittenOnce(s')
  {
  }

  lemma ProperGrows(r: RunId, written: map<Key, seq<Candidate>>, log: seq<Entry>, e: Entry)
    requires ProperLog(r, written, log) && Proper(r, written, e.key, e.payload)
    ensures ProperLog(r, written, log + [e])
  {
    hide Proper;
  }

  /** Nothing that is already counted changes when a message that is still queued is logged. */
  lemma SumUnmoved(s: Sys, s': Sys, i: AgentId, k: Key, token: Token, keys: set<Key>)
    requires i in s.agents && k in s.agents[i].store.outbox && Logs(s, s', i, k, token)
    requires k !in s.crm.idem && k in keys ==> s'.crm == s.crm
    ensures AckSum(s'.log, keys) == AckSum(s.log, keys)
  {
    if s'.crm != s.crm {
      AckSumExtends(s.log, keys, Entry(k, s.agents[i].store.outbox[k], Accepted(s'.crm, k, s.agents[i].store.outbox[k])));
    }
  }

  /** Marking a key as counted adds the answer the CRM keeps for it. */
  lemma MarkCounts(s: Sys, k: Key, keys: set<Key>)
    requires LogIsIdem(s) && k.Owner() == s.rid && k !in keys
    ensures AckSum(s.log, keys + {k}) == AckSum(s.log, keys) + if k in s.crm.idem then Accepted(s.crm, k, s.crm.idem[k]) else 0
  {
    if k in s.crm.idem {
      var n :| 0 <= n < |s.log| && s.log[n].key == k;
      AckSumAdds(s.log, keys, n);
    } else {
      AckSumOther(s.log, keys, k);
    }
  }

  lemma SubmitOthers(s: Sys, s': Sys, i: AgentId, k: Key, token: Token, a: Agent)
    requires AgentCounts(s, a) && i in s.agents && k in s.agents[i].store.outbox && Logs(s, s', i, k, token)
    requires Proper(s.rid, s.written, k, s.agents[i].store.outbox[k])
    requires |s.crm.run.candidates| <= |s'.crm.run.candidates| && s'.crm.run.maxCandidates == s.crm.run.maxCandidates
    ensures AgentCounts(s', a)
  {
    if k in a.store.delivered && k !in s.crm.idem { assert a.store.outbox[k] == s.agents[i].store.outbox[k]; }
    SumUnmoved(s, s', i, k, token, a.store.delivered);
  }

  /** A refused batch was never accepted, so dropping or splitting it loses nothing that was counted. */
  lemma RefusedIsNotLogged(s: Sys, k: Key, p: Payload)
    requires History(s) && Proper(s.rid, s.written, k, p) && p.Candidates? && s.refuses(p)
    ensures k !in s.crm.idem
  {
  }

  lemma ProperHalves(s: Sys, before: MemoryRun, after: MemoryRun, k: Key)
    requires ProperOutbox(s.rid, s.written, before.outbox) && k in before.outbox && Handled(before, after, k)
    requires forall m :: m in after.outbox && m !in before.outbox ==>
               m.SplitKey? && before.outbox[k].Candidates? && after.outbox[m] == Candidates(Half(before.outbox[k].batch, m.half))
    ensures ProperOutbox(s.rid, s.written, after.outbox)
  {
    assert Proper(s.rid, s.written, k, before.outbox[k]);
  }

  /** What `DeliveryCounts` says of a store and the answer that the CRM keeps. */
  ghost predicate CountedAs(crm: Crm, before: MemoryRun, after: MemoryRun, k: Key, p: Payload, refused: bool) {
    || (CountsSame(before, after) && after.delivered == before.delivered)
    || (CountsSame(before, after) && after.delivered == before.delivered + {k}
        && if p.Candidates? then refused else k in crm.idem)
    || (!refused && p.Candidates? && k in crm.idem && k in crm.results
        && crm.idem[k] == p && after.delivered == before.delivered + {k}
        && after.crmAccepted == before.crmAccepted + crm.results[k].accepted
        && after.baseline == Max(before.baseline, TotalIn(before, crm.results[k])))
  }

  lemma ProperAt(s: Sys, outbox: map<Key, Payload>, k: Key)
    requires ProperOutbox(s.rid, s.written, outbox) && k in outbox
    ensures Proper(s.rid, s.written, k, outbox[k])
  {
  }

  lemma CountedSum(s: Sys, before: MemoryRun, after: MemoryRun, k: Key, p: Payload)
    requires History(s) && CountedAs(s.crm, before, after, k, p, s.refuses(p)) && k !in before.delivered
    requires before.crmAccepted == AckSum(s.log, before.delivered) && Proper(s.rid, s.written, k, p)
    ensures after.crmAccepted == AckSum(s.log, after.delivered)
    ensures after.baseline <= Max(before.baseline, |s.crm.run.candidates|)
    ensures k in after.delivered ==> k in s.crm.idem || (p.Candidates? && s.refuses(p))
  {
    MarkCounts(s, k, before.delivered);
    if s.refuses(p) && p.Candidates? { RefusedIsNotLogged(s, k, p); }
    if k in s.crm.idem { LoggedPayload(s, k); }
    hide LogIsIdem, WrittenOnce, ProperLog;
  }

  lemma DeliverSum(s: Sys, i: AgentId, k: Key, channel: Channel)
    requires History(s) && CanDeliver(s, i, k) && AgentCounts(s, s.agents[i]) && History(Delivered(s, i, k, channel))
    ensures var s' := Delivered(s, i, k, channel); var b := s'.agents[i].store;
      && b.crmAccepted == AckSum(s'.log, b.delivered)
      && b.baseline <= Max(s.agents[i].store.baseline, |s'.crm.run.candidates|)
      && (k in b.delivered ==> k in s'.crm.idem || (s.agents[i].store.outbox[k].Candidates? && s.refuses(s.agents[i].store.outbox[k])))
  {
    hide History, Submit, StoreAfter, Reserves, Finalizes, Logged, CrmAfter, AckSum, ProperOutbox, DeliveredMeans;
    var s', a, p := Delivered(s, i, k, channel), s.agents[i], s.agents[i].store.outbox[k];
    DeliveringLogs(s, i, k, channel);
    SumUnmoved(s, s', i, k, a.pc.token, a.store.delivered);
    hide Logs;
    DeliveryCounts(s.crm, a.store, a.pc.token, s.now, k, channel, s.refuses(p));
    ProperAt(s, a.store.outbox, k);
    hide Proper;
    CountedSum(s', a.store, s'.agents[i].store, k, p);
  }

  lemma LoggedPayload(s: Sys, k: Key)
    requires History(s) && k in s.crm.idem && k.Owner() == s.rid
    ensures Proper(s.rid, s.written, k, s.crm.idem[k])
  {
    var n :| 0 <= n < |s.log| && s.log[n].key == k;
  }

  lemma DeliverOutbox(s: Sys, i: AgentId, k: Key, channel: Channel)
    requires CanDeliver(s, i, k) && ProperOutbox(s.rid, s.written, s.agents[i].store.outbox)
    ensures ProperOutbox(s.rid, s.written, Delivered(s, i, k, channel).agents[i].store.outbox)
  {
    var a, p := s.agents[i], s.agents[i].store.outbox[k];
    var b := Delivered(s, i, k, channel).agents[i];
    DeliveringLogs(s, i, k, channel);
    forall m | m in b.store.outbox && m !in a.store.outbox
      ensures m.SplitKey? && p.Candidates? && b.store.outbox[m] == Candidates(Half(p.batch, m.half))
    {
      DeliverySplits(s.crm, a.store, a.pc.token, s.now, k, channel, s.refuses(p), m);
    }
    ProperHalves(s, a.store, b.store, k);
  }

  lemma DeliverOwn(s: Sys, i: AgentId, k: Key, channel: Channel)
    requires History(s) && CanDeliver(s, i, k) && AgentCounts(s, s.agents[i]) && History(Delivered(s, i, k, channel))
    requires |s.crm.run.candidates| <= |Delivered(s, i, k, channel).crm.run.candidates|
    requires s.crm.run.maxCandidates == Delivered(s, i, k, channel).crm.run.maxCandidates
    ensures AgentCounts(Delivered(s, i, k, channel), Delivered(s, i, k, channel).agents[i])
  {
    var s' := Delivered(s, i, k, channel);
    hide History, Delivered;
    DeliveringLogs(s, i, k, channel);
    DeliverSum(s, i, k, channel);
    DeliverOutbox(s, i, k, channel);
    DeliveredSound(s, s', i, k, s.agents[i].pc.token);
  }

  lemma ReplaySum(s: Sys, i: AgentId, k: Key, channel: Channel)
    requires History(s) && CanReplay(s, i, k) && AgentCounts(s, s.agents[i]) && History(Replayed(s, i, k, channel))
    ensures var s' := Replayed(s, i, k, channel); var b := s'.agents[i].store;
      && b.crmAccepted == AckSum(s'.log, b.delivered) && b.baseline == s.agents[i].store.baseline
      && (k in b.delivered ==> k in s'.crm.idem) && (forall m :: m in b.outbox ==> m in s.agents[i].store.outbox)
  {
    var s', a, p := Replayed(s, i, k, channel), s.agents[i], s.agents[i].store.outbox[k];
    hide LogIsState, LogIsIdem, WrittenOnce, ProperLog, Submit;
    ReplayingLogs(s, i, k, channel);
    SumUnmoved(s, s', i, k, a.store.token.value, a.store.delivered);
    ReplayCounts(s.crm, a.store, s.now, k, channel, s.refuses(p));
    assert Proper(s.rid, s.written, k, p);
    MarkCounts(s', k, a.store.delivered);
    if k in s'.crm.idem { LoggedPayload(s', k); }
  }

  lemma ReplayOwn(s: Sys, i: AgentId, k: Key, channel: Channel)
    requires History(s) && CanReplay(s, i, k) && AgentCounts(s, s.agents[i]) && History(Replayed(s, i, k, channel))
    requires |s.crm.run.candidates| <= |Replayed(s, i, k, channel).crm.run.candidates|
    requires s.crm.run.maxCandidates == Replayed(s, i, k, channel).crm.run.maxCandidates
    ensures AgentCounts(Replayed(s, i, k, channel), Replayed(s, i, k, channel).agents[i])
  {
    var s' := Replayed(s, i, k, channel);
    hide History, Replayed;
    ReplayingLogs(s, i, k, channel);
    ReplaySum(s, i, k, channel);
    DeliveredSound(s, s', i, k, s.agents[i].store.token.value);
  }

  lemma DeliveredSound(s: Sys, s': Sys, i: AgentId, k: Key, token: Token)
    requires i in s.agents && Queued(s.agents[i].store, k) && Logs(s, s', i, k, token) && DeliveredMeans(s, s.agents[i].store)
    requires k in s'.agents[i].store.delivered ==>
      k in s'.crm.idem || (s.agents[i].store.outbox[k].Candidates? && s.refuses(s.agents[i].store.outbox[k]))
    ensures DeliveredMeans(s', s'.agents[i].store)
  {
  }

  lemma SubmitSteps(s: Sys, s': Sys, i: AgentId, k: Key, token: Token)
    requires Inv(s) && Keys.Inv(s') && i in s.agents && k in s.agents[i].store.outbox && Logs(s, s', i, k, token)
    requires History(s') && AgentCounts(s', s'.agents[i])
    requires |s.crm.run.candidates| <= |s'.crm.run.candidates| && s'.crm.run.maxCandidates == s.crm.run.maxCandidates
    ensures Inv(s')
  {
    hide Keys.Inv;
    assert AgentCounts(s, s.agents[i]);
    assert Proper(s.rid, s.written, k, s.agents[i].store.outbox[k]);
    forall j | j in s'.agents ensures AgentCounts(s', s'.agents[j]) {
      if j != i { SubmitOthers(s, s', i, k, token, s.agents[j]); }
    }
  }

  lemma DeliverSteps(s: Sys, i: AgentId, k: Key, channel: Channel)
    requires Inv(s) && CanDeliver(s, i, k) && Keys.Inv(Delivered(s, i, k, channel))
    ensures Inv(Delivered(s, i, k, channel))
  {
    var s', token := Delivered(s, i, k, channel), s.agents[i].pc.token;
    hide Keys.Inv, Delivered;
    DeliveringLogs(s, i, k, channel);
    SubmitHistory(s, s', i, k, token);
    DeliverOwn(s, i, k, channel);
    SubmitSteps(s, s', i, k, token);
  }

  lemma ReplaySteps(s: Sys, i: AgentId, k: Key, channel: Channel)
    requires Inv(s) && CanReplay(s, i, k) && Keys.Inv(Replayed(s, i, k, channel))
    ensures Inv(Replayed(s, i, k, channel))
  {
    var s', token := Replayed(s, i, k, channel), s.agents[i].store.token.value;
    hide Keys.Inv, Replayed;
    ReplayingLogs(s, i, k, channel);
    SubmitHistory(s, s', i, k, token);
    ReplayOwn(s, i, k, channel);
    SubmitSteps(s, s', i, k, token);
  }

  // ---------- every run ----------

  lemma EmptySave(s: Sys, s': Sys, i: AgentId)
    requires Inv(s) && i in s.agents && At(s.agents[i].pc, Searching) && s' == SavedCandidates(s, i, []) && Keys.Inv(s')
    ensures Inv(s')
  {
    hide Keys.Inv, Inv, SavedCandidates;
    EmptySaveIsQuiet(s, i);
    QuietSteps(s, s', i);
  }

  lemma StepKeeps(s: Sys, step: Step)
    requires Inv(s) && Enabled(s, step)
    ensures Inv(Apply(s, step))
  {
    Keys.StepKeeps(s, step);
    hide Keys.Inv, History, WorldEnabled, LeaseEnabled, WorkEnabled, CanDeliver, CanReplay, AfterWorld, AfterLease,
      AfterWork, AfterQueue, Delivered, Replayed, LogIsIdem, LogIsState, AgentCounts;
    match step
    case World(w) =>
      WorldIsQuiet(s, w);
      WorldSteps(s, AfterWorld(s, w));
    case Lease(i, l) =>
      LeaseIsQuiet(s, i, l);
      LeaseSteps(s, i, l);
    case Work(i, w) =>
      WorkIsQuiet(s, i, w);
      WorkSteps(s, i, w);
    case Queue(i, q) =>
      if q == Save([]) { EmptySaveStep(s, i); } else { QueueSteps(s, i, q); }
    case Deliver(i, k, channel) => DeliverSteps(s, i, k, channel);
    case Replay(i, k, channel) => ReplaySteps(s, i, k, channel);
  }

  lemma EmptySaveStep(s: Sys, i: AgentId)
    requires Inv(s) && QueueEnabled(s, i, Save([])) && Keys.Inv(AfterQueue(s, i, Save([])))
    ensures Inv(AfterQueue(s, i, Save([])))
  {
    hide Inv, Keys.Inv;
    EmptySave(s, AfterQueue(s, i, Save([])), i);
  }

  lemma LeaseSteps(s: Sys, i: AgentId, step: LeaseStep)
    requires Inv(s) && LeaseEnabled(s, i, step) && Keys.Inv(AfterLease(s, i, step))
    ensures Inv(AfterLease(s, i, step))
  {
    LeaseIsQuiet(s, i, step);
    hide Keys.Inv, AfterLease, LeaseEnabled;
    QuietSteps(s, AfterLease(s, i, step), i);
  }

  lemma WorkSteps(s: Sys, i: AgentId, step: WorkStep)
    requires Inv(s) && WorkEnabled(s, i, step) && Keys.Inv(AfterWork(s, i, step))
    ensures Inv(AfterWork(s, i, step))
  {
    hide Inv, Keys.Inv, AfterWork;
    WorkIsQuiet(s, i, step);
    hide WorkEnabled;
    QuietSteps(s, AfterWork(s, i, step), i);
  }

  lemma InitInv(s: Sys)
    requires Init(s)
    ensures Inv(s)
  {
    Keys.InitInv(s);
    hide Keys.Inv;
  }

  lemma ReachableInv(s: Sys)
    requires Reachable(s)
    ensures Inv(s)
  {
    hide Inv, Init, Enabled, Apply, Reachable;
    forall t | Init(t) ensures Inv(t) { InitInv(t); }
    forall t, step | Inv(t) && Enabled(t, step) ensures Inv(Apply(t, step)) { StepKeeps(t, step); }
    ReachableKeep(Inv, s);
  }

  /** Exactly once: in every run each accepted key is logged once, none of them is a refused payload, and the
      CRM's events and candidates are those of applying each logged message once, in order. */
  lemma EachMessageCountsOnce(s: Sys)
    requires Reachable(s)
    ensures OneEach(s.log)
    ensures forall k: Key :: k.Owner() == s.rid ==> (k in s.crm.idem <==> InLog(s.log, k))
    ensures forall n :: 0 <= n < |s.log| ==>
              s.log[n].key in s.crm.idem && s.crm.idem[s.log[n].key] == s.log[n].payload && !s.refuses(s.log[n].payload)
    ensures s.crm.run.events == EventsOf(s.log)
    ensures s.crm.run.candidates == CandidatesOf(s.log, s.crm.run.maxCandidates)
  {
    ReachableInv(s);
    hide Keys.Inv;
  }

  /** A candidates message is never answered with an idempotency conflict. */
  lemma CandidatesNeverConflict(s: Sys, i: AgentId, k: Key)
    requires Reachable(s) && CanDeliver(s, i, k) && s.agents[i].store.outbox[k].Candidates?
    ensures Call(s.crm, s.agents[i].pc.token, s.now, k, s.agents[i].store.outbox[k], s.refuses(s.agents[i].store.outbox[k])).1 != Conflict
  {
    ReachableInv(s);
    hide Inv, Reachable, Call;
    QueuedAsAccepted(s, i, k);
    var p := s.agents[i].store.outbox[k];
    ConflictIsAnotherPayload(s.crm, s.agents[i].pc.token, s.now, k, p, s.refuses(p));
  }

  lemma ConflictIsAnotherPayload(crm: Crm, token: Token, now: nat, k: Key, p: Payload, refused: bool)
    ensures Call(crm, token, now, k, p, refused).1 == Conflict ==> k in crm.idem && crm.idem[k] != p
  {
    hide ApplyEvents, UpsertAll, ValidLease;
  }

  lemma QueuedAsAccepted(s: Sys, i: AgentId, k: Key)
    requires Inv(s) && i in s.agents && k in s.agents[i].store.outbox && s.agents[i].store.outbox[k].Candidates?
    ensures k in s.crm.idem ==> s.crm.idem[k] == s.agents[i].store.outbox[k]
  {
    hide Keys.Inv;
    assert AgentCounts(s, s.agents[i]);
    assert Proper(s.rid, s.written, k, s.agents[i].store.outbox[k]);
    if k in s.crm.idem { LoggedPayload(s, k); }
  }

  lemma {:induction false} AckSumBelow(log: seq<Entry>, keys: set<Key>)
    ensures AckSum(log, keys) <= Total(log)
  {
    if |log| > 0 { AckSumBelow(log[..|log| - 1], keys); }
  }

  /** With any number of stores, none ever counts more accepted candidates than the CRM holds. */
  lemma NeverOverCounts(s: Sys, i: AgentId)
    requires Reachable(s) && i in s.agents
    ensures s.agents[i].store.crmAccepted <= |s.crm.run.candidates|
  {
    ReachableInv(s);
    hide Keys.Inv;
    assert AgentCounts(s, s.agents[i]);
    AckSumBelow(s.log, s.agents[i].store.delivered);
  }

  /** The cap holds, no baseline exceeds the CRM's count, and so a worker that stops because the limit was
      reached stops only when the CRM is full. */
  lemma LimitReachedMeansFull(s: Sys, i: AgentId)
    requires Reachable(s) && i in s.agents
    ensures s.agents[i].store.baseline <= |s.crm.run.candidates| <= s.crm.run.maxCandidates
    ensures s.agents[i].store.baseline >= s.agents[i].store.cap ==> |s.crm.run.candidates| == s.crm.run.maxCandidates
  {
    ReachableInv(s);
    hide Keys.Inv;
    assert AgentCounts(s, s.agents[i]);
  }

  // ---------- one durable store ----------

  /** Outboxes only grow. */
  ghost predicate OutboxesGrow(s: Sys, s': Sys) {
    s'.agents.Keys == s.agents.Keys
    && forall i :: i in s.agents ==> s.agents[i].store.outbox.Keys <= s'.agents[i].store.outbox.Keys
  }

  /** Every accepted message is in the outbox of some worker. */
  ghost predicate Sourced(s: Sys) {
    forall n :: 0 <= n < |s.log| ==> HasSource(s, s.log[n].key)
  }

  ghost predicate HasSource(s: Sys, k: Key) {
    exists i :: i in s.agents && k in s.agents[i].store.outbox
  }

  lemma SourcedStays(s: Sys, s': Sys, k: Key, i: AgentId)
    requires Sourced(s) && OutboxesGrow(s, s') && i in s.agents && (s'.log != s.log ==> k in s.agents[i].store.outbox)
    requires s'.log == s.log || (|s'.log| == |s.log| + 1 && s'.log[..|s.log|] == s.log && s'.log[|s.log|].key == k)
    ensures Sourced(s')
  {
    forall n | 0 <= n < |s'.log| ensures HasSource(s', s'.log[n].key) {
      if n < |s.log| {
        assert s'.log[n] == s.log[n] && HasSource(s, s.log[n].key);
        var j :| j in s.agents && s.log[n].key in s.agents[j].store.outbox;
        assert s'.log[n].key in s'.agents[j].store.outbox;
      } else {
        assert s'.log[n].key in s'.agents[i].store.outbox;
      }
    }
  }

  lemma SourcedLease(s: Sys, i: AgentId, l: LeaseStep)
    requires Sourced(s) && LeaseEnabled(s, i, l)
    ensures Sourced(AfterLease(s, i, l))
  {
    LeaseIsQuiet(s, i, l);
    hide AfterLease, Sourced;
    SourcedStays(s, AfterLease(s, i, l), TerminalKey(0, RunFailed), i);
  }

  lemma SourcedWork(s: Sys, i: AgentId, w: WorkStep)
    requires Sourced(s) && WorkEnabled(s, i, w)
    ensures Sourced(AfterWork(s, i, w))
  {
    WorkIsQuiet(s, i, w);
    hide AfterWork, Sourced;
    SourcedStays(s, AfterWork(s, i, w), TerminalKey(0, RunFailed), i);
  }

  lemma SourcedStep(s: Sys, step: Step)
    requires Sourced(s) && Enabled(s, step)
    ensures Sourced(Apply(s, step))
  {
    hide WorldEnabled, LeaseEnabled, WorkEnabled, AfterWorld, AfterLease, AfterWork, AfterQueue, Delivered, Replayed, Sourced;
    match step
    case World(w) => SourcedWorld(s, w);
    case Lease(i, l) => SourcedLease(s, i, l);
    case Work(i, w) => SourcedWork(s, i, w);
    case Queue(i, q) => SourcedQueue(s, i, q);
    case Deliver(i, k, channel) =>
      DeliveringLogs(s, i, k, channel);
      SourcedStays(s, Delivered(s, i, k, channel), k, i);
    case Replay(i, k, channel) =>
      ReplayingLogs(s, i, k, channel);
      SourcedStays(s, Replayed(s, i, k, channel), k, i);
  }

  lemma SourcedQueue(s: Sys, i: AgentId, q: QueueStep)
    requires Sourced(s) && QueueEnabled(s, i, q)
    ensures Sourced(AfterQueue(s, i, q))
  {
    if q == Save([]) {
    } else {
      QueueingPuts(s, i, q);
    }
    hide AfterQueue, Sourced;
    SourcedStays(s, AfterQueue(s, i, q), TerminalKey(0, RunFailed), i);
  }

  lemma SourcedWorld(s: Sys, w: WorldStep)
    requires Sourced(s) && WorldEnabled(s, w)
    ensures Sourced(AfterWorld(s, w))
  {
    WorldIsQuiet(s, w);
    var s' := AfterWorld(s, w);
    hide AfterWorld;
    forall n | 0 <= n < |s'.log| ensures HasSource(s', s'.log[n].key) {
      assert HasSource(s, s.log[n].key);
      var j :| j in s.agents && s.log[n].key in s.agents[j].store.outbox;
      assert j in s'.agents && s'.log[n].key in s'.agents[j].store.outbox;
    }
  }

  lemma ReachableSourced(s: Sys)
    requires Reachable(s)
    ensures Sourced(s)
  {
    forall t | Init(t) ensures Sourced(t) {}
    hide Sourced, Init, Enabled, Apply, Reachable;
    forall t, step | Sourced(t) && Enabled(t, step) ensures Sourced(Apply(t, step)) { SourcedStep(t, step); }
    ReachableKeep(Sourced, s);
  }

  /** With one durable store, once no candidates message is queued or dead, the store has counted exactly
      the candidates that the CRM holds. */
  lemma CountsAgree(s: Sys, i: AgentId)
    requires Reachable(s) && s.agents.Keys == {i}
    requires forall k :: k in s.agents[i].store.outbox && k.ForCandidates() ==>
               !Queued(s.agents[i].store, k) && k !in s.agents[i].store.dead
    ensures s.agents[i].store.crmAccepted == |s.crm.run.candidates|
  {
    ReachableInv(s);
    hide Keys.Inv;
    ReachableSourced(s);
    var store := s.agents[i].store;
    assert AgentCounts(s, s.agents[i]);
    forall n | 0 <= n < |s.log| ensures s.log[n].key in store.delivered || s.log[n].accepted == 0 {
      assert Proper(s.rid, s.written, s.log[n].key, s.log[n].payload);
      assert HasSource(s, s.log[n].key);
    }
    AckSumAll(s.log, store.delivered);
  }

  // ---------- the baseline ----------

  /** The store's view of the remote count never goes down. */
  lemma BaselineNeverFalls(s: Sys, step: Step, i: AgentId)
    requires Enabled(s, step) && i in s.agents
    ensures i in Apply(s, step).agents && s.agents[i].store.baseline <= Apply(s, step).agents[i].store.baseline
  {
    hide WorldEnabled, LeaseEnabled, WorkEnabled, AfterWorld, AfterLease, AfterWork, AfterQueue;
    match step
    case World(w) => WorldIsQuiet(s, w);
    case Lease(j, l) => LeaseIsQuiet(s, j, l);
    case Work(j, w) => WorkIsQuiet(s, j, w);
    case Queue(j, q) => BaselineQueue(s, j, q);
    case Deliver(j, k, channel) =>
      DeliveringLogs(s, j, k, channel);
      DeliveryCounts(s.crm, s.agents[j].store, s.agents[j].pc.token, s.now, k, channel, s.refuses(s.agents[j].store.outbox[k]));
    case Replay(j, k, channel) =>
      ReplayingLogs(s, j, k, channel);
      ReplayCounts(s.crm, s.agents[j].store, s.now, k, channel, s.refuses(s.agents[j].store.outbox[k]));
  }

  lemma BaselineQueue(s: Sys, i: AgentId, q: QueueStep)
    requires QueueEnabled(s, i, q)
    ensures forall j :: j in s.agents ==>
              j in AfterQueue(s, i, q).agents && AfterQueue(s, i, q).agents[j].store.baseline == s.agents[j].store.baseline
  {
    hide AfterQueue, QueueEnabled;
    if q == Save([]) {
      SavedNothing(s, i);
    } else {
      QueueingPuts(s, i, q);
    }
  }

  lemma SavedNothing(s: Sys, i: AgentId)
    requires QueueEnabled(s, i, Save([]))
    ensures OthersSame(s, AfterQueue(s, i, Save([])), i) && i in AfterQueue(s, i, Save([])).agents
    ensures AfterQueue(s, i, Save([])).agents[i].store == s.agents[i].store
  {
  }
}
