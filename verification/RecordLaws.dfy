/** What the operations of the store do to a task record or to a message, field by field (app/prospecting/store.py). */
module RecordLaws {
  import opened Contracts
  import opened StoreSpec
  import opened StoreLaws

  // ---------- loading a claim ----------

  /** An event message that is neither delivered nor buried says that the task was completed. */
  ghost predicate SaysCompleted(run: MemoryRun, t: TaskId) {
    exists k, j :: k in run.outbox && k !in run.delivered && k !in run.dead && run.outbox[k].Events?
                   && 0 <= j < |run.outbox[k].events|
                   && run.outbox[k].events[j].task == Some(t) && run.outbox[k].events[j].status == Some(Completed)
  }

  /** A loaded record is unowned and has the claim's counts. Its status and attempts are the claim's too, unless the store
      has it completed, the CRM does not know yet, and the event that says so is still queued. A running one can be taken
      at once. */
  lemma LoadedRecord(run: MemoryRun, claim: Claim, worker: Option<AgentId>, now: nat, j: nat)
    requires DistinctIds(claim.tasks) && j < |claim.tasks|
    ensures var spec, after := claim.tasks[j], EnsureRun(run, claim, worker, now);
      var done := spec.id in run.tasks && run.tasks[spec.id].status == Completed && (spec.status == Pending || spec.status == Running)
                  && SaysCompleted(run, spec.id);
      && spec.id in after.tasks
      && var r := after.tasks[spec.id];
         && r.source == spec.source && r.maxAttempts == spec.maxAttempts && r.results == spec.found && r.rejected == spec.discarded
         && r.owner == None
         && (if done then r.status == Completed && r.attempts == run.tasks[spec.id].attempts
             else r.status == spec.status && r.attempts == spec.attempts)
         && r.expires == (if r.status == Running then Some(now) else None)
  {
    EnsureExact(run, claim, worker, now, j);
    assert SaysCompleted(run, claim.tasks[j].id) <==> QueuedCompletion(run, claim.tasks[j].id);
  }

  /** A task that the claim does not list is withdrawn. */
  lemma UnlistedRecord(run: MemoryRun, claim: Claim, worker: Option<AgentId>, now: nat, t: TaskId)
    requires t in run.tasks && forall j :: 0 <= j < |claim.tasks| ==> claim.tasks[j].id != t
    ensures t in EnsureRun(run, claim, worker, now).tasks
    ensures EnsureRun(run, claim, worker, now).tasks[t] == run.tasks[t].(status := Cancelled, owner := None, expires := None)
  {
    Reloads(run, claim.tasks, now);
  }

  // ---------- taking and leaving a task ----------

  /** A task can be taken: it is pending or its lease has run out, and it has an attempt left. */
  predicate Ripe(r: TaskRecord, now: nat) {
    r.attempts < r.maxAttempts && (r.status == Pending || (r.status == Running && r.expires.Some? && r.expires.value <= now))
  }

  /** The record after `claim_task` has passed over it: an expired one without attempts left has failed. */
  ghost predicate PassedOver(before: TaskRecord, after: TaskRecord, now: nat) {
    after == before
    || (before.status == Running && before.expires.Some? && before.expires.value <= now && before.attempts >= before.maxAttempts
        && after == before.(status := Failed, owner := None))
  }

  /** `claim_task` takes a ripe task for the worker, counts the attempt and leases it from now on; every other record is
      passed over. It takes one whenever there is one, and one of the most preferred source among the ripe ones. */
  lemma TakenRecord(run: MemoryRun, worker: AgentId, now: nat, seconds: nat)
    requires StoreSpec.Valid(run)
    ensures var (after, task) := ClaimTask(run, worker, now, seconds);
      && after == run.(tasks := after.tasks) && after.tasks.Keys == run.tasks.Keys
      && (task.Some? <==> exists t :: t in run.tasks && Ripe(run.tasks[t], now))
      && (forall t :: t in run.tasks && (task.Some? ==> t != task.value.id) ==> PassedOver(run.tasks[t], after.tasks[t], now))
      && (task.Some? ==>
            && task.value.id in run.tasks
            && var r := run.tasks[task.value.id];
               && Ripe(r, now)
               && after.tasks[task.value.id]
                  == r.(attempts := r.attempts + 1, status := Running, owner := Some(worker), expires := Some(now + seconds))
               && task.value == WorkerTask(task.value.id, r.source, r.attempts + 1, r.maxAttempts))
  {
    ClaimTaskTakes(run, worker, now, seconds);
    hide ClaimTask, NoRepeats;
    var (after, task) := ClaimTask(run, worker, now, seconds);
    if task.None? {
      forall t | t in run.tasks ensures !Ripe(run.tasks[t], now) { ClaimTaskPasses(run, worker, now, seconds, t); }
    }
  }

  /** The task that is taken comes first, in the order of the sources and of insertion, among all that are ripe. */
  lemma {:induction false} ScanTakesFirst(run: MemoryRun, ids: seq<TaskId>, worker: AgentId, now: nat, seconds: nat) returns (n: nat)
    requires Scan(run, ids, worker, now, seconds).1.Some?
    ensures n < |ids| && ids[n] == Scan(run, ids, worker, now, seconds).1.value.id
    ensures forall m :: 0 <= m < n && ids[m] in run.tasks ==> !Ripe(run.tasks[ids[m]], now)
    decreases ids
  {
    var r := Lookup(run.tasks, ids[0]);
    if r.Some? && Takable(r.value, now) {
      n := 0;
    } else {
      var gone := r.Some? && Expired(r.value, now) && r.value.attempts >= r.value.maxAttempts;
      var next := if gone then run.(tasks := run.tasks[ids[0] := GiveUp(r.value)]) else run;
      var m := ScanTakesFirst(next, ids[1..], worker, now, seconds);
      n := m + 1;
      forall i | 0 <= i < n && ids[i] in run.tasks ensures !Ripe(run.tasks[ids[i]], now) {
        if i > 0 { assert ids[i] == ids[1..][i - 1]; }
      }
    }
  }

  lemma FirstRipeIsTaken(run: MemoryRun, worker: AgentId, now: nat, seconds: nat) returns (n: nat)
    requires ClaimTask(run, worker, now, seconds).1.Some?
    ensures n < |ByPriority(run)| && ByPriority(run)[n] == ClaimTask(run, worker, now, seconds).1.value.id
    ensures forall m :: 0 <= m < n && ByPriority(run)[m] in run.tasks ==> !Ripe(run.tasks[ByPriority(run)[m]], now)
  {
    n := ScanTakesFirst(run, ByPriority(run), worker, now, seconds);
  }

  /** Only the owner can extend, finish or give back a task; what is given back can be tried again exactly if it has attempts
      left. */
  lemma OwnedRecord(run: MemoryRun, t: TaskId, worker: AgentId, now: nat, seconds: nat, results: nat, rejected: nat)
    requires t in run.tasks
    ensures var r := run.tasks[t]; var mine := r.owner == Some(worker);
      && HeartbeatTask(run, t, worker, now, seconds)
         == run.(tasks := run.tasks[t := if mine && r.status == Running then r.(expires := Some(now + seconds)) else r])
      && FinishTask(run, t, worker, results, rejected)
         == run.(tasks := run.tasks[t := if mine then r.(status := Completed, results := results, rejected := rejected, owner := None) else r])
      && FailTask(run, t, worker)
         == run.(tasks := run.tasks[t := if mine then r.(status := if r.attempts < r.maxAttempts then Pending else Failed, owner := None) else r])
  {
    assert run.tasks[t := run.tasks[t]] == run.tasks;
  }

  lemma CancelledRecord(run: MemoryRun, t: TaskId)
    requires t in run.tasks
    ensures var r, after := run.tasks[t], CancelTasks(run);
      && after.tasks.Keys == run.tasks.Keys && after == run.(tasks := after.tasks)
      && after.tasks[t] == if r.status == Pending || r.status == Running then r.(status := Cancelled) else r
  {
  }

  // ---------- messages ----------

  /** A failed try is counted. A message that may be tried again is not due for the waiting time of its tries, and is due
      again from then on; one that may not is buried, and never due. */
  lemma PostponedOrBuried(run: MemoryRun, k: Key, retryable: bool, now: nat, later: nat)
    requires Queued(run, k)
    ensures var after := MarkFailed(run, k, retryable, now);
      var tries := (if k in run.tries then run.tries[k] else 0) + 1;
      && k in after.tries && after.tries[k] == tries && after.delivered == run.delivered && after.outbox == run.outbox
      && (forall m :: m != k ==> (Due(after, m, later) <==> Due(run, m, later)))
      && if retryable then after.dead == run.dead && Queued(after, k) && (Due(after, k, later) <==> later >= now + Backoff(tries))
         else after.dead == run.dead + {k} && !Due(after, k, later)
  {
    hide Backoff;
  }

  /** An answer counts once: later ones, and the answers of a delivered message, change nothing. */
  lemma AnswerCountsOnce(run: MemoryRun, k: Key, ack: Ack, again: Ack)
    ensures var after := RecordAck(run, k, ack);
      && RecordAck(after, k, again) == after
      && (k in run.delivered ==> after == run)
      && (k !in run.delivered ==>
            && after.delivered == run.delivered + {k} && after.crmAccepted == run.crmAccepted + ack.accepted
            && after.rejectedLimit == run.rejectedLimit + ack.rejectedLimit && after.baseline >= run.baseline
            && (ack.found.Some? ==> after.baseline == Max(run.baseline, ack.found.value))
            && (ack.found.None? ==> after.baseline == run.baseline + ack.accepted))
  {
  }

  /** The halves of a batch join to the batch, neither is empty, and their lengths differ by at most one. */
  lemma HalvesJoin(batch: seq<Candidate>)
    requires |batch| >= 2
    ensures Half(batch, 0) + Half(batch, 1) == batch
    ensures 1 <= |Half(batch, 0)| <= |Half(batch, 1)| <= |Half(batch, 0)| + 1
  {
  }

  /** Splitting takes the batch out of the queue, and even out of the dead letters, and queues its halves as new messages. */
  lemma SplitRecord(run: MemoryRun, k: Key)
    requires Queued(run, k) && CanSplit(run, k) && SplitKey(k, 0) !in run.outbox && SplitKey(k, 1) !in run.outbox
    requires run.delivered <= run.outbox.Keys && run.dead <= run.outbox.Keys
    ensures var after, batch := Split(run, k), run.outbox[k].batch;
      && after.outbox == run.outbox[SplitKey(k, 0) := Candidates(batch[..|batch| / 2])][SplitKey(k, 1) := Candidates(batch[|batch| / 2..])]
      && after.queue == run.queue + [SplitKey(k, 0), SplitKey(k, 1)]
      && forall m :: Queued(after, m) <==> (Queued(run, m) && m != k) || m == SplitKey(k, 0) || m == SplitKey(k, 1)
  {
  }

  // ---------- order ----------

  /** The ids of the claim that the store does not know. */
  function NewIds(run: MemoryRun, specs: seq<ClaimedTask>): seq<TaskId> {
    if |specs| == 0 then []
    else NewIds(run, specs[..|specs| - 1]) + if specs[|specs| - 1].id in run.tasks then [] else [specs[|specs| - 1].id]
  }

  lemma {:induction false} ReloadOrder(run: MemoryRun, specs: seq<ClaimedTask>, now: nat)
    requires DistinctIds(specs)
    ensures Reload(run, specs, now).order == run.order + NewIds(run, specs)
    ensures forall t :: t in Reload(run, specs, now).tasks <==> t in run.tasks || Listed(specs, t)
  {
    if |specs| > 0 {
      var most, last := specs[..|specs| - 1], specs[|specs| - 1];
      ReloadOrder(run, most, now);
      forall t ensures Listed(specs, t) <==> Listed(most, t) || t == last.id { ListedNext(specs, t); }
      assert !Listed(most, last.id);
    }
  }

  lemma ListedNext(specs: seq<ClaimedTask>, t: TaskId)
    requires |specs| > 0
    ensures Listed(specs, t) <==> Listed(specs[..|specs| - 1], t) || t == specs[|specs| - 1].id
  {
    var most := specs[..|specs| - 1];
    if Listed(most, t) {
      var i :| 0 <= i < |most| && most[i].id == t;
      assert specs[i].id == t;
    }
    if i :| 0 <= i < |specs| && specs[i].id == t && i < |most| { assert most[i].id == t; }
    assert specs[|specs| - 1].id == specs[|specs| - 1].id;
  }

  /** Loading a claim remembers its token and the worker, never lowers the baseline, leaves every message alone, and lists the
      new tasks after the known ones, in the order of the claim. */
  lemma LoadedRun(run: MemoryRun, claim: Claim, worker: Option<AgentId>, now: nat)
    requires DistinctIds(claim.tasks)
    ensures var after := EnsureRun(run, claim, worker, now);
      && after.token == Some(claim.token) && after.worker == (if worker.Some? then worker else run.worker)
      && after.baseline >= run.baseline && after.baseline >= claim.candidatesFound
      && (after.baseline == run.baseline || after.baseline == claim.candidatesFound)
      && after.outbox == run.outbox && after.queue == run.queue && after.delivered == run.delivered && after.dead == run.dead
      && after.order == run.order + NewIds(run, claim.tasks)
  {
    Reloads(run, claim.tasks, now);
    ReloadOrder(run, claim.tasks, now);
  }

  /** A new message goes to the end of the queue, and one with a known key takes the old one's place. */
  lemma QueuedLast(run: MemoryRun, r: RunId, e: RunEvent, task: TaskId, attempt: nat, batch: seq<Candidate>)
    ensures var k, after := EventKey(r, e.id), SaveEvent(run, r, e);
      && after.outbox == run.outbox[k := Events([e])] && after.queue == (if k in run.outbox then run.queue else run.queue + [k])
      && after.tasks == run.tasks && after.delivered == run.delivered && after.dead == run.dead
    ensures var k, after := CandidatesKey(r, task, attempt), QueueCandidates(run, r, task, attempt, batch);
      if batch == [] then after == run
      else after.outbox == run.outbox[k := Candidates(batch)] && after.queue == (if k in run.outbox then run.queue else run.queue + [k])
           && after.tasks == run.tasks && after.delivered == run.delivered && after.dead == run.dead
  {
  }
}
