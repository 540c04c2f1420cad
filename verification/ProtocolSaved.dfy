/** Nothing that a search kept is lost: what becomes of the candidates of a saved batch, to the last split. */
module ProtocolSaved {
  import opened Contracts
  import opened CrmSpec
  import opened CrmLaws
  import opened UpsertLaws
  import opened StoreSpec
  import opened StoreLaws
  import opened Delivery
  import opened DeliveryLaws
  import opened Isolation
  import opened Protocol
  import opened ProtocolSteps
  import Keys = ProtocolKeys
  import Counts = ProtocolCounts

  // ---------- refused batches have their halves queued ----------

  predicate Large(p: Payload) { p.Candidates? && |p.batch| >= 2 }

  /** A batch of two or more that was refused and taken out of the queue has its halves in the outbox. */
  ghost predicate Halved(store: MemoryRun, refuses: Payload -> bool) {
    forall k :: k in store.delivered ==>
      k in store.outbox
      && (Large(store.outbox[k]) && refuses(store.outbox[k]) ==> SplitKey(k, 0) in store.outbox && SplitKey(k, 1) in store.outbox)
  }

  ghost predicate Inv(s: Sys) {
    Counts.Inv(s) && forall i :: i in s.agents ==> Halved(s.agents[i].store, s.refuses)
  }

  lemma QuietHalved(a: MemoryRun, b: MemoryRun, refuses: Payload -> bool)
    requires Halved(a, refuses) && SameOutbox(a, b)
    ensures Halved(b, refuses)
  {
  }

  lemma PutHalved(a: MemoryRun, k: Key, p: Payload, refuses: Payload -> bool)
    requires Halved(a, refuses) && (k in a.delivered ==> !p.Candidates?)
    ensures Halved(Put(a, k, p), refuses)
  {
  }

  lemma TriedHalved(crm: Crm, run: MemoryRun, token: Token, now: nat, k: Key, channel: Channel, refuses: Payload -> bool)
    requires Halved(run, refuses) && Queued(run, k)
    ensures Halved(StoreAfter(crm, run, token, now, k, channel, refuses(run.outbox[k])).0, refuses)
  {
    hide StoreAfter, OutcomeOf, Split;
    var refused := refuses(run.outbox[k]);
    DeliveryHandles(crm, run, token, now, k, channel, refused);
    AttemptShows(crm, run, token, now, k, channel, refused);
    var after, outcome := StoreAfter(crm, run, token, now, k, channel, refused).0, OutcomeOf(crm, run, token, now, k, channel, refused);
    if outcome == Divided { SplitHas(run, k); }
    assert k in after.delivered && refused && Large(run.outbox[k]) ==> outcome == Divided;
  }

  lemma SplitHas(run: MemoryRun, k: Key)
    requires CanSplit(run, k)
    ensures SplitKey(k, 0) in Split(run, k).outbox && SplitKey(k, 1) in Split(run, k).outbox && k in Split(run, k).delivered
  {
  }

  lemma ReplayedHalved(crm: Crm, run: MemoryRun, now: nat, k: Key, channel: Channel, refuses: Payload -> bool)
    requires Halved(run, refuses) && Queued(run, k) && run.token.Some? && run.outbox[k].Terminal()
    ensures Halved(StoreAfterReplay(crm, run, now, k, channel, refuses(run.outbox[k])), refuses)
  {
    hide StoreAfterReplay;
    ReplayHandles(crm, run, now, k, channel, refuses(run.outbox[k]));
  }

  // ---------- every step ----------

  lemma OneMoves(s: Sys, s': Sys, i: AgentId)
    requires Inv(s) && Counts.Inv(s') && s'.refuses == s.refuses && OthersSame(s, s', i) && i in s'.agents
    requires Halved(s'.agents[i].store, s.refuses)
    ensures Inv(s')
  {
    hide Counts.Inv, Halved;
  }

  lemma QuietSteps(s: Sys, s': Sys, i: AgentId)
    requires Inv(s) && Counts.Inv(s') && i in s.agents && i in s'.agents && SameStory(s, s') && OthersSame(s, s', i) && QuietFor(s, s', i)
    ensures Inv(s')
  {
    hide Counts.Inv;
    QuietHalved(s.agents[i].store, s'.agents[i].store, s.refuses);
    hide Halved;
    OneMoves(s, s', i);
  }

  /** The key of a message being queued is new, unless the message carries no candidates. */
  lemma QueuedIsNew(s: Sys, i: AgentId, q: QueueStep)
    requires QueueEnabled(s, i, q) && q != Save([]) && Counts.Inv(s) && Counts.Inv(AfterQueue(s, i, q))
    ensures MessageKey(s, i, q) in s.agents[i].store.outbox ==> !MessageOf(s, i, q).Candidates?
    ensures MessageKey(s, i, q) in s.agents[i].store.outbox ==> !s.agents[i].store.outbox[MessageKey(s, i, q)].Candidates?
  {
    hide Counts.Inv, Keys.Inv, Counts.WrittenOnce, Counts.BatchOf;
    var k := MessageKey(s, i, q);
    CountsGive(s);
    CountsGive(AfterQueue(s, i, q));
    if k in s.agents[i].store.outbox {
      ProperIn(s, i, k);
      if q.Save? {
        Counts.SavedKeyIsNew(s, i, q.batch);
        NoBatchUnsaved(s.written, k);
      }
    }
  }

  lemma CountsGive(s: Sys)
    requires Counts.Inv(s)
    ensures Keys.Inv(s) && Counts.WrittenOnce(s)
  {
    hide Keys.Inv;
  }

  lemma NoBatchUnsaved(written: map<Key, seq<Candidate>>, k: Key)
    requires k.CandidatesKey? && k !in written
    ensures Counts.BatchOf(written, k) == None
  {
  }

  lemma QueueSteps(s: Sys, i: AgentId, q: QueueStep)
    requires Inv(s) && QueueEnabled(s, i, q) && Counts.Inv(AfterQueue(s, i, q))
    ensures Inv(AfterQueue(s, i, q))
  {
    var s' := AfterQueue(s, i, q);
    if q == Save([]) {
      EmptySaveIsQuiet(s, i);
      hide Counts.Inv, Halved, AfterQueue, SavedCandidates;
      assert s' == SavedCandidates(s, i, []);
      QuietSteps(s, s', i);
    } else {
      QueuedIsNew(s, i, q);
      QueueingPuts(s, i, q);
      hide AfterQueue, QueueEnabled, MessageKey, MessageOf;
      var k, p := MessageKey(s, i, q), MessageOf(s, i, q);
      assert Counts.AgentCounts(s, s.agents[i]);
      hide Counts.Inv;
      PutHalved(s.agents[i].store, k, p, s.refuses);
      hide Halved;
      OneMoves(s, s', i);
    }
  }

  lemma DeliverSteps(s: Sys, i: AgentId, k: Key, channel: Channel)
    requires Inv(s) && CanDeliver(s, i, k) && Counts.Inv(Delivered(s, i, k, channel))
    ensures Inv(Delivered(s, i, k, channel))
  {
    hide Counts.Inv, Halved, StoreAfter;
    DeliveringLogs(s, i, k, channel);
    TriedHalved(s.crm, s.agents[i].store, s.agents[i].pc.token, s.now, k, channel, s.refuses);
    OneMoves(s, Delivered(s, i, k, channel), i);
  }

  lemma ReplaySteps(s: Sys, i: AgentId, k: Key, channel: Channel)
    requires Inv(s) && CanReplay(s, i, k) && Counts.Inv(Replayed(s, i, k, channel))
    ensures Inv(Replayed(s, i, k, channel))
  {
    hide Counts.Inv, Halved, StoreAfterReplay;
    ReplayingLogs(s, i, k, channel);
    ReplayedHalved(s.crm, s.agents[i].store, s.now, k, channel, s.refuses);
    OneMoves(s, Replayed(s, i, k, channel), i);
  }

  lemma StepKeeps(s: Sys, step: Step)
    requires Inv(s) && Enabled(s, step)
    ensures Inv(Apply(s, step))
  {
    Counts.StepKeeps(s, step);
    hide Counts.Inv, Halved, WorldEnabled, LeaseEnabled, WorkEnabled, QueueEnabled, CanDeliver, CanReplay, AfterWorld, AfterLease, AfterWork,
      AfterQueue, Delivered, Replayed;
    match step
    case World(w) => WorldIsQuiet(s, w);
    case Lease(i, l) =>
      LeaseIsQuiet(s, i, l);
      QuietSteps(s, AfterLease(s, i, l), i);
    case Work(i, w) =>
      WorkIsQuiet(s, i, w);
      QuietSteps(s, AfterWork(s, i, w), i);
    case Queue(i, q) => QueueSteps(s, i, q);
    case Deliver(i, k, channel) => DeliverSteps(s, i, k, channel);
    case Replay(i, k, channel) => ReplaySteps(s, i, k, channel);
  }

  lemma InitInv(s: Sys)
    requires Init(s)
    ensures Inv(s)
  {
    Counts.InitInv(s);
    hide Counts.Inv;
  }

  lemma ReachableInv(s: Sys)
    requires Reachable(s)
    ensures Inv(s)
  {
    hide Inv, Init, Enabled, Apply, Reachable;
    forall t | Init(t) ensures Inv(t) { InitInv(t); }
    forall t, step | Inv(t) && Enabled(t, step) ensures Inv(Apply(t, step)) { StepKeeps(t, step); }
    ReachableKeep(Inv, s);
  }

  // ---------- a saved message stays ----------

  ghost predicate Present(s: Sys, i: AgentId, k: Key, p: Payload) {
    i in s.agents && k in s.agents[i].store.outbox && s.agents[i].store.outbox[k] == p
  }

  ghost predicate Has(s: Sys, i: AgentId, k: Key, p: Payload) { Inv(s) && Present(s, i, k, p) }

  lemma QuietPresent(s: Sys, s': Sys, j: AgentId, i: AgentId, k: Key, p: Payload)
    requires Present(s, i, k, p) && OthersSame(s, s', j) && j in s.agents && j in s'.agents && s'.agents[j].store.outbox == s.agents[j].store.outbox
    ensures Present(s', i, k, p)
  {
  }

  lemma PutPresent(s: Sys, s': Sys, j: AgentId, i: AgentId, k: Key, p: Payload, m: Key, q: Payload)
    requires Present(s, i, k, p) && OthersSame(s, s', j) && j in s.agents && j in s'.agents && s'.agents[j].store == Put(s.agents[j].store, m, q)
    requires m in s.agents[j].store.outbox ==> s.agents[j].store.outbox[m] != p
    ensures Present(s', i, k, p)
  {
  }

  lemma TriedPresent(s: Sys, s': Sys, j: AgentId, i: AgentId, k: Key, p: Payload, m: Key)
    requires Present(s, i, k, p) && OthersSame(s, s', j) && j in s.agents && j in s'.agents && Handled(s.agents[j].store, s'.agents[j].store, m)
    ensures Present(s', i, k, p)
  {
  }

  lemma MessageStays(s: Sys, step: Step, i: AgentId, k: Key, p: Payload)
    requires Has(s, i, k, p) && p.Candidates? && Enabled(s, step)
    ensures Has(Apply(s, step), i, k, p)
  {
    StepKeeps(s, step);
    assert Counts.Inv(s) && Counts.Inv(Apply(s, step));
    hide Inv, Counts.Inv, Present, Enabled, Apply;
    StepPresent(s, step, i, k, p);
  }

  lemma StepPresent(s: Sys, step: Step, i: AgentId, k: Key, p: Payload)
    requires Enabled(s, step) && Counts.Inv(s) && Counts.Inv(Apply(s, step)) && Present(s, i, k, p) && p.Candidates?
    ensures Present(Apply(s, step), i, k, p)
  {
    hide Counts.Inv, WorldEnabled, LeaseEnabled, WorkEnabled, QueueEnabled, CanDeliver, CanReplay, AfterWorld, AfterLease, AfterWork, AfterQueue,
      Delivered, Replayed, Present;
    ActorPresent(s, step);
    match step
    case World(w) => WorldPresent(s, w, i, k, p);
    case Lease(j, l) => LeasePresent(s, j, l, i, k, p);
    case Work(j, w) => WorkPresent(s, j, w, i, k, p);
    case Queue(j, q) => QueuePresent(s, j, q, i, k, p);
    case Deliver(j, m, channel) => DeliverPresent(s, j, m, channel, i, k, p);
    case Replay(j, m, channel) => ReplayPresent(s, j, m, channel, i, k, p);
  }

  lemma WorldPresent(s: Sys, w: WorldStep, i: AgentId, k: Key, p: Payload)
    requires WorldEnabled(s, w) && Present(s, i, k, p)
    ensures Present(AfterWorld(s, w), i, k, p)
  {
    hide WorldEnabled, AfterWorld, SameStory, SameRecords;
    WorldIsQuiet(s, w);
  }

  lemma LeasePresent(s: Sys, j: AgentId, l: LeaseStep, i: AgentId, k: Key, p: Payload)
    requires LeaseEnabled(s, j, l) && j in s.agents && Present(s, i, k, p)
    ensures Present(AfterLease(s, j, l), i, k, p)
  {
    hide LeaseEnabled, AfterLease, SameStory, SameRecords;
    LeaseIsQuiet(s, j, l);
    QuietPresent(s, AfterLease(s, j, l), j, i, k, p);
  }

  lemma WorkPresent(s: Sys, j: AgentId, w: WorkStep, i: AgentId, k: Key, p: Payload)
    requires WorkEnabled(s, j, w) && j in s.agents && Present(s, i, k, p)
    ensures Present(AfterWork(s, j, w), i, k, p)
  {
    hide WorkEnabled, AfterWork, SameStory;
    WorkIsQuiet(s, j, w);
    QuietPresent(s, AfterWork(s, j, w), j, i, k, p);
  }

  lemma QueuePresent(s: Sys, j: AgentId, q: QueueStep, i: AgentId, k: Key, p: Payload)
    requires QueueEnabled(s, j, q) && j in s.agents && Counts.Inv(s) && Counts.Inv(AfterQueue(s, j, q)) && Present(s, i, k, p) && p.Candidates?
    ensures Present(AfterQueue(s, j, q), i, k, p)
  {
    hide Counts.Inv, QueueEnabled, AfterQueue, MessageKey, MessageOf, Present, OthersSame;
    QueuesAt(s, j, q);
    if q == Save([]) {
      SavedNothing(s, j);
      QuietPresent(s, AfterQueue(s, j, q), j, i, k, p);
    } else {
      QueuedIsNew(s, j, q);
      QueueingPuts(s, j, q);
      PutPresent(s, AfterQueue(s, j, q), j, i, k, p, MessageKey(s, j, q), MessageOf(s, j, q));
    }
  }

  lemma QueuesAt(s: Sys, i: AgentId, q: QueueStep)
    requires QueueEnabled(s, i, q)
    ensures i in AfterQueue(s, i, q).agents
  {
  }

  lemma DeliverPresent(s: Sys, j: AgentId, m: Key, channel: Channel, i: AgentId, k: Key, p: Payload)
    requires CanDeliver(s, j, m) && Present(s, i, k, p)
    ensures Present(Delivered(s, j, m, channel), i, k, p)
  {
    hide Delivered, Present, Submit, Handled;
    DeliveringLogs(s, j, m, channel);
    TriedPresent(s, Delivered(s, j, m, channel), j, i, k, p, m);
  }

  lemma ReplayPresent(s: Sys, j: AgentId, m: Key, channel: Channel, i: AgentId, k: Key, p: Payload)
    requires CanReplay(s, j, m) && Present(s, i, k, p)
    ensures Present(Replayed(s, j, m, channel), i, k, p)
  {
    hide Replayed, Present, Submit, Handled;
    ReplayingLogs(s, j, m, channel);
    TriedPresent(s, Replayed(s, j, m, channel), j, i, k, p, m);
  }

  lemma SavedNothing(s: Sys, i: AgentId)
    requires QueueEnabled(s, i, Save([]))
    ensures var s' := AfterQueue(s, i, Save([])); OthersSame(s, s', i) && i in s'.agents && s'.agents[i].store == s.agents[i].store
  {
  }

  lemma MessageStaysForever(s: Sys, steps: seq<Step>, s': Sys, i: AgentId, k: Key, p: Payload)
    requires Has(s, i, k, p) && p.Candidates? && Runs(s, steps, s')
    ensures Has(s', i, k, p)
  {
    hide Has, Enabled, Apply, Runs;
    forall a, step | Has(a, i, k, p) && Enabled(a, step) ensures Has(Apply(a, step), i, k, p) { MessageStays(a, step, i, k, p); }
    RunsKeep(a => Has(a, i, k, p), s, steps, s');
  }

  // ---------- what was accepted is held ----------

  ghost predicate HeldOrFull(held: map<CandidateKey, Candidate>, cap: nat, c: Candidate) { KeyOf(c) in held || |held| >= cap }

  /** Every candidate of an accepted message is held, unless the run is full. */
  lemma {:induction false} AcceptedIsHeld(log: seq<Entry>, cap: nat, n: nat, c: Candidate)
    requires n < |log| && log[n].payload.Candidates? && c in log[n].payload.batch
    ensures HeldOrFull(Counts.CandidatesOf(log, cap), cap, c)
  {
    var most, last := log[..|log| - 1], log[|log| - 1];
    var before := Counts.CandidatesOf(most, cap);
    if n < |most| {
      AcceptedIsHeld(most, cap, n, c);
      if last.payload.Candidates? { UpsertCounts(before, last.payload.batch, cap); }
    } else {
      UpsertHoldsOrFull(before, last.payload.batch, cap, c);
    }
  }

  lemma UpsertHoldsOrFull(held: map<CandidateKey, Candidate>, batch: seq<Candidate>, cap: nat, c: Candidate)
    requires c in batch
    ensures HeldOrFull(UpsertAll(held, batch, cap).held, cap, c)
  {
    var u := UpsertAll(held, batch, cap);
    AcceptedWhileRoom(held, batch, cap);
    if |u.held| < cap {
      NoneRefused(held, batch, cap, u);
      var i: nat :| i < |batch| && batch[i] == c;
      assert i !in Refused(batch, u.held);
    }
  }

  // ---------- to the last split ----------

  /** No candidates message of the worker is waiting or buried. */
  ghost predicate AllDelivered(store: MemoryRun) {
    forall k :: k in store.outbox && store.outbox[k].Candidates? ==> k in store.delivered
  }

  /** The candidate is held by the CRM, or the run is full, or the CRM refuses the candidate itself. */
  ghost predicate AccountedFor(s: Sys, c: Candidate) {
    HeldOrFull(s.crm.run.candidates, s.crm.run.maxCandidates, c) || s.refuses(Candidates([c]))
  }

  lemma LoggedIsHeld(s: Sys, k: Key, p: Payload, c: Candidate)
    requires Counts.Inv(s) && Counts.Proper(s.rid, s.written, k, p) && p.Candidates? && c in p.batch && k in s.crm.idem
    ensures HeldOrFull(s.crm.run.candidates, s.crm.run.maxCandidates, c)
  {
    hide Keys.Inv;
    var n :| 0 <= n < |s.log| && s.log[n].key == k;
    assert Counts.Proper(s.rid, s.written, s.log[n].key, s.log[n].payload);
    assert s.log[n].payload == p;
    AcceptedIsHeld(s.log, s.crm.run.maxCandidates, n, c);
  }

  /** A batch that was refused and split: the half that has the candidate. */
  lemma HalfWith(s: Sys, i: AgentId, k: Key, c: Candidate) returns (h: Key)
    requires Inv(s) && i in s.agents && k in s.agents[i].store.delivered && k in s.agents[i].store.outbox
    requires Large(s.agents[i].store.outbox[k]) && s.refuses(s.agents[i].store.outbox[k]) && c in s.agents[i].store.outbox[k].batch
    ensures var store := s.agents[i].store;
      && h in store.outbox && store.outbox[h].Candidates? && c in store.outbox[h].batch
      && |store.outbox[h].batch| < |store.outbox[k].batch|
  {
    hide *;
    BothHalves(s, i, k);
    ProperIn(s, i, k);
    ProperIn(s, i, SplitKey(k, 0));
    ProperIn(s, i, SplitKey(k, 1));
    h := HalfOf(s.rid, s.written, s.agents[i].store.outbox, k, c);
  }

  lemma HalfOf(r: RunId, written: map<Key, seq<Candidate>>, outbox: map<Key, Payload>, k: Key, c: Candidate) returns (h: Key)
    requires k in outbox && SplitKey(k, 0) in outbox && SplitKey(k, 1) in outbox && Large(outbox[k]) && c in outbox[k].batch
    requires Counts.Proper(r, written, k, outbox[k])
    requires Counts.Proper(r, written, SplitKey(k, 0), outbox[SplitKey(k, 0)]) && Counts.Proper(r, written, SplitKey(k, 1), outbox[SplitKey(k, 1)])
    ensures h in outbox && outbox[h].Candidates? && c in outbox[h].batch && |outbox[h].batch| < |outbox[k].batch|
  {
    hide Counts.Proper, Half;
    var half := InOneHalf(outbox[k].batch, c);
    HalfProper(r, written, k, outbox[k], 0, outbox[SplitKey(k, 0)]);
    HalfProper(r, written, k, outbox[k], 1, outbox[SplitKey(k, 1)]);
    h := SplitKey(k, half);
  }

  lemma BothHalves(s: Sys, i: AgentId, k: Key)
    requires Inv(s) && i in s.agents && k in s.agents[i].store.delivered && k in s.agents[i].store.outbox
    requires Large(s.agents[i].store.outbox[k]) && s.refuses(s.agents[i].store.outbox[k])
    ensures Counts.Inv(s) && SplitKey(k, 0) in s.agents[i].store.outbox && SplitKey(k, 1) in s.agents[i].store.outbox
  {
    hide Counts.Inv;
    assert Halved(s.agents[i].store, s.refuses);
  }

  lemma InOneHalf(batch: seq<Candidate>, c: Candidate) returns (half: nat)
    requires |batch| >= 2 && c in batch
    ensures half <= 1 && c in Half(batch, half) && |Half(batch, half)| < |batch|
  {
    assert batch == Half(batch, 0) + Half(batch, 1);
    half := if c in Half(batch, 0) then 0 else 1;
  }

  lemma ProperIn(s: Sys, i: AgentId, k: Key)
    requires Counts.Inv(s) && i in s.agents && k in s.agents[i].store.outbox
    ensures Counts.Proper(s.rid, s.written, k, s.agents[i].store.outbox[k])
  {
    hide Keys.Inv;
    assert Counts.AgentCounts(s, s.agents[i]);
  }

  lemma HalfProper(r: RunId, written: map<Key, seq<Candidate>>, k: Key, p: Payload, half: nat, q: Payload)
    requires Counts.Proper(r, written, k, p) && p.Candidates? && Counts.Proper(r, written, SplitKey(k, half), q)
    ensures q.Candidates? && q.batch == Half(p.batch, half)
  {
  }

  lemma DeliveredBatch(s: Sys, i: AgentId, k: Key)
    requires Inv(s) && i in s.agents && k in s.agents[i].store.outbox && s.agents[i].store.outbox[k].Candidates?
    requires AllDelivered(s.agents[i].store)
    ensures Counts.Inv(s) && Counts.Proper(s.rid, s.written, k, s.agents[i].store.outbox[k]) && k in s.agents[i].store.delivered
    ensures k in s.crm.idem || s.refuses(s.agents[i].store.outbox[k])
  {
    hide Keys.Inv;
    assert Counts.AgentCounts(s, s.agents[i]);
  }

  lemma {:induction false} EveryHalf(s: Sys, i: AgentId, k: Key, c: Candidate)
    requires Inv(s) && i in s.agents && AllDelivered(s.agents[i].store)
    requires k in s.agents[i].store.outbox && s.agents[i].store.outbox[k].Candidates? && c in s.agents[i].store.outbox[k].batch
    ensures AccountedFor(s, c)
    decreases |s.agents[i].store.outbox[k].batch|
  {
    hide Inv, Counts.Inv, HeldOrFull, Counts.Proper, AllDelivered;
    var p := s.agents[i].store.outbox[k];
    DeliveredBatch(s, i, k);
    if k in s.crm.idem {
      LoggedIsHeld(s, k, p, c);
    } else if |p.batch| == 1 {
      assert p == Candidates([c]);
    } else {
      var h := HalfWith(s, i, k, c);
      EveryHalf(s, i, h, c);
    }
  }

  /** No candidate that a search kept is lost. In every run after the batch was saved, once no candidates message of the worker
      is waiting or buried, each candidate of the batch is held by the CRM, unless the run is full or the CRM refuses that very
      candidate: whatever was rejected, split, retried or lost on the way. */
  lemma NothingSavedIsLost(s: Sys, i: AgentId, batch: seq<Candidate>, steps: seq<Step>, s': Sys, c: Candidate)
    requires Reachable(s) && QueueEnabled(s, i, Save(batch)) && c in batch
    requires Runs(AfterQueue(s, i, Save(batch)), steps, s') && i in s'.agents && AllDelivered(s'.agents[i].store)
    ensures KeyOf(c) in s'.crm.run.candidates || |s'.crm.run.candidates| >= s'.crm.run.maxCandidates || s'.refuses(Candidates([c]))
  {
    ReachableInv(s);
    var t := AfterQueue(s, i, Save(batch));
    assert i in s.agents;
    SaveHas(s, i, batch);
    hide Inv, Runs, AfterQueue, QueueEnabled, Reachable;
    var k := MessageKey(s, i, Save(batch));
    MessageStaysForever(t, steps, s', i, k, Candidates(batch));
    EveryHalf(s', i, k, c);
  }

  lemma SaveHas(s: Sys, i: AgentId, batch: seq<Candidate>)
    requires Inv(s) && i in s.agents && QueueEnabled(s, i, Save(batch)) && |batch| > 0
    ensures Has(AfterQueue(s, i, Save(batch)), i, MessageKey(s, i, Save(batch)), Candidates(batch))
  {
    hide Inv, AfterQueue, QueueEnabled;
    var step := Queue(i, Save(batch));
    assert Enabled(s, step) && Apply(s, step) == AfterQueue(s, i, Save(batch));
    QueueingPuts(s, i, Save(batch));
    QueuesAt(s, i, Save(batch));
    hide Enabled, Apply;
    StepKeeps(s, step);
  }

  // ---------- what is held was saved ----------

  ghost predicate Logged(log: seq<Entry>, c: Candidate) {
    exists n :: 0 <= n < |log| && log[n].payload.Candidates? && c in log[n].payload.batch
  }

  lemma {:induction false} HeldWasIn(held: map<CandidateKey, Candidate>, batch: seq<Candidate>, cap: nat, k: CandidateKey)
    requires k in UpsertAll(held, batch, cap).held
    ensures UpsertAll(held, batch, cap).held[k] in batch || (k in held && UpsertAll(held, batch, cap).held[k] == held[k])
  {
    if |batch| > 0 {
      var most := batch[..|batch| - 1];
      assert batch == most + [batch[|batch| - 1]];
      if k in UpsertAll(held, most, cap).held { HeldWasIn(held, most, cap, k); }
    }
  }

  lemma {:induction false} HeldWasLogged(log: seq<Entry>, cap: nat, k: CandidateKey)
    requires k in Counts.CandidatesOf(log, cap)
    ensures Logged(log, Counts.CandidatesOf(log, cap)[k])
  {
    var most, last := log[..|log| - 1], log[|log| - 1];
    var before, c := Counts.CandidatesOf(most, cap), Counts.CandidatesOf(log, cap)[k];
    if last.payload.Candidates? { HeldWasIn(before, last.payload.batch, cap, k); }
    if last.payload.Candidates? && c in last.payload.batch {
      assert log[|log| - 1] == last;
    } else {
      HeldWasLogged(most, cap, k);
      var n :| 0 <= n < |most| && most[n].payload.Candidates? && c in most[n].payload.batch;
      assert log[n] == most[n];
    }
  }

  ghost predicate Saved(written: map<Key, seq<Candidate>>, c: Candidate) { exists k :: k in written && c in written[k] }

  lemma {:induction false} BatchWasSaved(written: map<Key, seq<Candidate>>, k: Key, c: Candidate)
    requires Counts.BatchOf(written, k).Some? && c in Counts.BatchOf(written, k).value
    ensures Saved(written, c)
  {
    if k.SplitKey? { BatchWasSaved(written, k.parent, c); } else { assert c in written[k]; }
  }

  /** Conversely nothing is invented: every candidate that the CRM holds is one of a batch that some worker saved. */
  lemma NothingHeldIsInvented(s: Sys, k: CandidateKey)
    requires Reachable(s) && k in s.crm.run.candidates
    ensures exists m :: m in s.written && s.crm.run.candidates[k] in s.written[m]
  {
    ReachableInv(s);
    hide Keys.Inv, Reachable;
    var c := s.crm.run.candidates[k];
    HeldWasLogged(s.log, s.crm.run.maxCandidates, k);
    var n :| 0 <= n < |s.log| && s.log[n].payload.Candidates? && c in s.log[n].payload.batch;
    assert Counts.Proper(s.rid, s.written, s.log[n].key, s.log[n].payload);
    BatchWasSaved(s.written, s.log[n].key, c);
  }
}
