/** What each operation of `MemoryWorkerStore` (app/prospecting/store.py) does to the record of one run. */
module StoreSpec {
  import opened Contracts

  datatype TaskRecord = TaskRecord(
    source: SourceName, attempts: nat, maxAttempts: nat, status: TaskStatus,
    owner: Option<AgentId>, expires: Option<nat>, results: nat, rejected: nat)

  /** `order` and `queue` list the keys of `tasks` and `outbox` in insertion order. */
  datatype MemoryRun = MemoryRun(
    cap: nat, tasks: map<TaskId, TaskRecord>, order: seq<TaskId>,
    outbox: map<Key, Payload>, queue: seq<Key>, delivered: set<Key>, dead: set<Key>,
    tries: map<Key, nat>, availableAt: map<Key, nat>,
    baseline: nat, crmAccepted: nat, rejectedLimit: nat, rejectedInvalid: nat,
    status: RunStatus, worker: Option<AgentId>, token: Option<Token>)

  datatype WorkerTask = WorkerTask(id: TaskId, source: SourceName, attempt: nat, maxAttempts: nat)

  datatype Envelope = Envelope(key: Key, payload: Payload)

  function NewMemoryRun(cap: nat): MemoryRun {
    MemoryRun(cap, map[], [], map[], [], {}, {}, map[], map[], 0, 0, 0, 0, RunRunning, None, None)
  }

  predicate NoRepeats<T(==)>(s: seq<T>) {
    forall i, j :: 0 <= i < j < |s| ==> s[i] != s[j]
  }

  ghost predicate Valid(run: MemoryRun) {
    && NoRepeats(run.order) && (forall t :: t in run.order <==> t in run.tasks)
    && NoRepeats(run.queue) && (forall k :: k in run.queue <==> k in run.outbox)
    && run.delivered <= run.outbox.Keys && run.dead <= run.outbox.Keys
  }

  /** A half exists only once its parent has been split. */
  ghost predicate Rooted(run: MemoryRun) {
    forall k :: k in run.outbox && k.SplitKey? ==> k.parent in run.outbox && k.parent in run.delivered
  }

  // ---------- outbox ----------

  predicate Queued(run: MemoryRun, k: Key) {
    k in run.outbox && k !in run.delivered && k !in run.dead
  }

  ghost predicate Drained(run: MemoryRun) {
    forall k :: !Queued(run, k)
  }

  predicate Due(run: MemoryRun, k: Key, now: nat) {
    Queued(run, k) && (k in run.availableAt ==> run.availableAt[k] <= now)
  }

  function Put(run: MemoryRun, k: Key, p: Payload): MemoryRun {
    run.(outbox := run.outbox[k := p], queue := if k in run.outbox then run.queue else run.queue + [k])
  }

  function PutNew(run: MemoryRun, k: Key, p: Payload): MemoryRun {
    if k in run.outbox then run else Put(run, k, p)
  }

  function QueueCandidates(run: MemoryRun, r: RunId, task: TaskId, attempt: nat, batch: seq<Candidate>): MemoryRun {
    if |batch| == 0 then run else Put(run, CandidatesKey(r, task, attempt), Candidates(batch))
  }

  function SaveEvent(run: MemoryRun, r: RunId, e: RunEvent): MemoryRun {
    Put(run, EventKey(r, e.id), Events([e]))
  }

  function MarkDelivered(run: MemoryRun, k: Key): MemoryRun {
    if k in run.outbox then run.(delivered := run.delivered + {k}) else run
  }

  function FinalizeTerminal(run: MemoryRun, k: Key, status: RunStatus): MemoryRun {
    run.(delivered := run.delivered + {k}, status := status)
  }

  function Pow2(n: nat): nat { if n == 0 then 1 else 2 * Pow2(n - 1) }

  function Backoff(tries: nat): nat { Min(300, Pow2(Min(tries, 8))) }

  function MarkFailed(run: MemoryRun, k: Key, retryable: bool, now: nat): MemoryRun {
    if k !in run.outbox then run
    else
      var tries := (if k in run.tries then run.tries[k] else 0) + 1;
      if retryable then run.(tries := run.tries[k := tries], availableAt := run.availableAt[k := now + Backoff(tries)])
      else run.(tries := run.tries[k := tries], dead := run.dead + {k})
  }

  function Half(batch: seq<Candidate>, half: nat): seq<Candidate> {
    if half == 0 then batch[..|batch| / 2] else batch[|batch| / 2..]
  }

  predicate CanSplit(run: MemoryRun, k: Key) {
    k in run.outbox && run.outbox[k].Candidates? && k !in run.delivered && |run.outbox[k].batch| >= 2
  }

  function Split(run: MemoryRun, k: Key): MemoryRun
    requires CanSplit(run, k)
  {
    var batch := run.outbox[k].batch;
    var halves := PutNew(PutNew(run, SplitKey(k, 0), Candidates(Half(batch, 0))),
                         SplitKey(k, 1), Candidates(Half(batch, 1)));
    halves.(delivered := halves.delivered + {k}, dead := halves.dead - {k})
  }

  predicate CanDiscard(run: MemoryRun, k: Key) {
    k in run.outbox && run.outbox[k].Candidates? && |run.outbox[k].batch| == 1
  }

  function Discard(run: MemoryRun, k: Key): MemoryRun {
    run.(delivered := run.delivered + {k}, dead := run.dead - {k}, rejectedInvalid := run.rejectedInvalid + 1)
  }

  /** An answer without a total is taken to add to what is known. */
  function TotalIn(run: MemoryRun, ack: Ack): nat { OrElse(ack.found, run.baseline + ack.accepted) }

  function RecordAck(run: MemoryRun, k: Key, ack: Ack): MemoryRun {
    if k in run.delivered then run
    else run.(baseline := Max(run.baseline, TotalIn(run, ack)), crmAccepted := run.crmAccepted + ack.accepted,
              rejectedLimit := run.rejectedLimit + ack.rejectedLimit, delivered := run.delivered + {k})
  }

  // ---------- claims of a run ----------

  predicate Completes(e: RunEvent, t: TaskId) {
    e.status == Some(Completed) && e.task == Some(t)
  }

  /** Some event message that is neither delivered nor dead reports the task completed. */
  ghost predicate QueuedCompletion(run: MemoryRun, t: TaskId) {
    exists k, j :: Queued(run, k) && run.outbox[k].Events? && 0 <= j < |run.outbox[k].events|
                   && Completes(run.outbox[k].events[j], t)
  }

  function FromClaim(spec: ClaimedTask, existing: Option<TaskRecord>, completionQueued: bool, now: nat): TaskRecord {
    var keep := existing.Some? && existing.value.status == Completed && spec.status.Open() && completionQueued;
    var status := if keep then Completed else spec.status;
    TaskRecord(spec.source, if keep then existing.value.attempts else spec.attempts, spec.maxAttempts, status,
               None, if status == Running then Some(now) else None, spec.found, spec.discarded)
  }

  function Lookup(tasks: map<TaskId, TaskRecord>, t: TaskId): Option<TaskRecord> {
    if t in tasks then Some(tasks[t]) else None
  }

  ghost function Reload(run: MemoryRun, specs: seq<ClaimedTask>, now: nat): MemoryRun {
    if |specs| == 0 then run
    else
      var before := Reload(run, specs[..|specs| - 1], now);
      var s := specs[|specs| - 1];
      before.(tasks := before.tasks[s.id := FromClaim(s, Lookup(before.tasks, s.id), QueuedCompletion(run, s.id), now)],
              order := if s.id in before.tasks then before.order else before.order + [s.id])
  }

  predicate Listed(specs: seq<ClaimedTask>, t: TaskId) {
    exists i :: 0 <= i < |specs| && specs[i].id == t
  }

  function Withdrawn(r: TaskRecord): TaskRecord { r.(status := Cancelled, owner := None, expires := None) }

  ghost function EnsureRun(run: MemoryRun, claim: Claim, worker: Option<AgentId>, now: nat): MemoryRun {
    var loaded := Reload(run, claim.tasks, now);
    loaded.(tasks := map t | t in loaded.tasks ::
                       if Listed(claim.tasks, t) then loaded.tasks[t] else Withdrawn(loaded.tasks[t]),
            baseline := Max(run.baseline, claim.candidatesFound),
            worker := if worker.Some? then worker else run.worker,
            token := Some(claim.token))
  }

  // ---------- tasks ----------

  predicate Expired(r: TaskRecord, now: nat) {
    r.status == Running && r.expires.Some? && r.expires.value <= now
  }

  predicate Takable(r: TaskRecord, now: nat) {
    (r.status == Pending || Expired(r, now)) && r.attempts < r.maxAttempts
  }

  function Of(run: MemoryRun, ids: seq<TaskId>, source: SourceName): seq<TaskId> {
    if |ids| == 0 then []
    else (if ids[0] in run.tasks && run.tasks[ids[0]].source == source then [ids[0]] else []) + Of(run, ids[1..], source)
  }

  /** Google Places before Brave before anything else; insertion order within a source. */
  function ByPriority(run: MemoryRun): seq<TaskId> {
    Of(run, run.order, GooglePlaces) + Of(run, run.order, BraveSearch) + Of(run, run.order, OfficialWebsite)
  }

  function GiveUp(r: TaskRecord): TaskRecord { r.(status := Failed, owner := None) }

  function Taken(r: TaskRecord, worker: AgentId, now: nat, seconds: nat): TaskRecord {
    r.(attempts := r.attempts + 1, status := Running, owner := Some(worker), expires := Some(now + seconds))
  }

  function Scan(run: MemoryRun, ids: seq<TaskId>, worker: AgentId, now: nat, seconds: nat)
    : (MemoryRun, Option<WorkerTask>)
    decreases ids
  {
    if |ids| == 0 then (run, None)
    else if ids[0] !in run.tasks then Scan(run, ids[1..], worker, now, seconds)
    else
      var r := run.tasks[ids[0]];
      if Expired(r, now) && r.attempts >= r.maxAttempts then
        Scan(run.(tasks := run.tasks[ids[0] := GiveUp(r)]), ids[1..], worker, now, seconds)
      else if !Takable(r, now) then Scan(run, ids[1..], worker, now, seconds)
      else (run.(tasks := run.tasks[ids[0] := Taken(r, worker, now, seconds)]),
            Some(WorkerTask(ids[0], r.source, r.attempts + 1, r.maxAttempts)))
  }

  function ClaimTask(run: MemoryRun, worker: AgentId, now: nat, seconds: nat): (MemoryRun, Option<WorkerTask>) {
    Scan(run, ByPriority(run), worker, now, seconds)
  }

  predicate Owns(run: MemoryRun, t: TaskId, worker: AgentId) {
    t in run.tasks && run.tasks[t].owner == Some(worker)
  }

  function HeartbeatTask(run: MemoryRun, t: TaskId, worker: AgentId, now: nat, seconds: nat): MemoryRun {
    if Owns(run, t, worker) && run.tasks[t].status == Running
    then run.(tasks := run.tasks[t := run.tasks[t].(expires := Some(now + seconds))]) else run
  }

  /** `finish_task` raises, and changes nothing, unless the worker owns the task. */
  function FinishTask(run: MemoryRun, t: TaskId, worker: AgentId, results: nat, rejected: nat): MemoryRun {
    if Owns(run, t, worker)
    then run.(tasks := run.tasks[t := run.tasks[t].(status := Completed, results := results, rejected := rejected, owner := None)])
    else run
  }

  function FailTask(run: MemoryRun, t: TaskId, worker: AgentId): MemoryRun {
    if Owns(run, t, worker)
    then run.(tasks := run.tasks[t := run.tasks[t].(
                status := if run.tasks[t].attempts >= run.tasks[t].maxAttempts then Failed else Pending, owner := None)])
    else run
  }

  function CancelRecord(r: TaskRecord): TaskRecord { if r.status.Open() then r.(status := Cancelled) else r }

  function CancelTasks(run: MemoryRun): MemoryRun {
    run.(tasks := map t | t in run.tasks :: CancelRecord(run.tasks[t]))
  }

  // ---------- summary ----------

  function InStatus(run: MemoryRun, status: TaskStatus): set<TaskId> {
    set t | t in run.tasks && run.tasks[t].status == status
  }

  function Count(run: MemoryRun, status: TaskStatus): nat { |InStatus(run, status)| }

  function LimitedEvents(events: seq<RunEvent>): nat {
    if |events| == 0 then 0
    else LimitedEvents(events[..|events| - 1]) + if events[|events| - 1].budgetLimited then 1 else 0
  }

  function LimitedMessages(run: MemoryRun, keys: seq<Key>): nat {
    if |keys| == 0 then 0
    else
      var k := keys[|keys| - 1];
      LimitedMessages(run, keys[..|keys| - 1])
      + if k in run.outbox && run.outbox[k].Events? then LimitedEvents(run.outbox[k].events) else 0
  }

  function Summary(run: MemoryRun): RunSummary {
    RunSummary(Count(run, Pending), Count(run, Running), Count(run, Completed), Count(run, Failed),
               Count(run, Cancelled), run.baseline, |run.dead|, run.crmAccepted, run.rejectedLimit,
               run.rejectedInvalid, LimitedMessages(run, run.queue))
  }
}
