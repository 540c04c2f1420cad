/** The records of one store between two executions, and what claiming, finishing and giving back do to them. */
module TaskLoop {
  import opened Contracts
  import opened StoreSpec
  import opened StoreLaws

  /** A running record has no owner and has expired. */
  predicate RestsAt(r: TaskRecord, now: nat) {
    r.status == Running ==> r.owner == None && r.expires.Some? && r.expires.value <= now
  }

  /** Pending, but no attempt is left: claim_task passes the task over and nothing gives it up. */
  predicate Stranded(r: TaskRecord) { r.status == Pending && r.attempts >= r.maxAttempts }

  function StrandedIn(run: MemoryRun): set<TaskId> {
    set t | t in run.tasks && Stranded(run.tasks[t])
  }

  ghost predicate Rests(run: MemoryRun, now: nat) {
    Ordered(run) && forall t :: t in run.tasks ==> RestsAt(run.tasks[t], now)
  }

  /** The worker is executing the task; every other record rests. */
  ghost predicate Executes(run: MemoryRun, task: WorkerTask, worker: AgentId, now: nat) {
    && Ordered(run) && task.id in run.tasks
    && run.tasks[task.id].status == Running && run.tasks[task.id].owner == Some(worker)
    && run.tasks[task.id].attempts == task.attempt && run.tasks[task.id].maxAttempts == task.maxAttempts
    && forall t :: t in run.tasks && t != task.id ==> RestsAt(run.tasks[t], now)
  }

  function LeftIn(run: MemoryRun): nat { Left(run.tasks, run.order) }

  /** No attempt came back, and no task became stranded or was rescued. */
  ghost predicate Spent(before: MemoryRun, after: MemoryRun) {
    LeftIn(after) <= LeftIn(before) && StrandedIn(after) == StrandedIn(before)
  }

  lemma RestsLater(run: MemoryRun, now: nat, later: nat)
    requires Rests(run, now) && now <= later
    ensures Rests(run, later)
  {
  }

  lemma ExecutesLater(run: MemoryRun, task: WorkerTask, worker: AgentId, now: nat, later: nat)
    requires Executes(run, task, worker, now) && now <= later
    ensures Executes(run, task, worker, later)
  {
  }

  lemma SameTasksSame(a: MemoryRun, b: MemoryRun, task: WorkerTask, worker: AgentId, now: nat)
    requires b.tasks == a.tasks && b.order == a.order
    ensures (Rests(a, now) ==> Rests(b, now)) && (Executes(a, task, worker, now) ==> Executes(b, task, worker, now))
    ensures LeftIn(b) == LeftIn(a) && Spent(a, b)
  {
  }

  /** A freshly loaded claim rests, whatever the store held before. */
  lemma EnsureRests(run: MemoryRun, claim: Claim, worker: Option<AgentId>, now: nat)
    requires Ordered(run)
    ensures Rests(EnsureRun(run, claim, worker, now), now)
  {
    var after := EnsureRun(run, claim, worker, now);
    ReloadOrders(run, claim.tasks, now);
    forall t | t in after.tasks ensures RestsAt(after.tasks[t], now) {
      if after.tasks[t].status.Open() { var j := EnsureOpens(run, claim, worker, now, t); }
    }
  }

  lemma ScannedStranded(run: MemoryRun, after: MemoryRun, task: Option<WorkerTask>, worker: AgentId, now: nat, seconds: nat)
    requires Scanned(run, after, task, worker, now, seconds)
    ensures StrandedIn(after) == StrandedIn(run)
  {
  }

  lemma ScannedLeft(run: MemoryRun, after: MemoryRun, task: Option<WorkerTask>, worker: AgentId, now: nat, seconds: nat)
    requires Scanned(run, after, task, worker, now, seconds)
    ensures LeftIn(after) <= LeftIn(run)
    ensures task.Some? && Ordered(run) ==> LeftIn(after) < LeftIn(run)
  {
    if task.Some? && Ordered(run) {
      var t := task.value.id;
      assert t in run.order && LeftOf(after.tasks[t]) < LeftOf(run.tasks[t]);
    }
    LeftFalls(run.tasks, after.tasks, run.order);
  }

  lemma ScannedExecutes(run: MemoryRun, after: MemoryRun, task: Option<WorkerTask>, worker: AgentId, now: nat, seconds: nat)
    requires Scanned(run, after, task, worker, now, seconds) && Rests(run, now)
    ensures after.order == run.order && if task.None? then Rests(after, now) else Executes(after, task.value, worker, now)
  {
  }

  /** Claiming takes a task and uses up one of its attempts, or finds that only stranded tasks are open. */
  lemma ClaimExecutes(run: MemoryRun, worker: AgentId, now: nat, seconds: nat)
    requires Rests(run, now)
    ensures var (after, task) := ClaimTask(run, worker, now, seconds);
      && after.order == run.order && Spent(run, after)
      && if task.None?
         then Rests(after, now) && forall t :: t in after.tasks && after.tasks[t].status.Open() ==> t in StrandedIn(run)
         else Executes(after, task.value, worker, now) && LeftIn(after) < LeftIn(run)
  {
    var (after, task) := ClaimTask(run, worker, now, seconds);
    ClaimTaskTakes(run, worker, now, seconds);
    hide ClaimTask, LeftIn, Executes;
    ScannedStranded(run, after, task, worker, now, seconds);
    ScannedLeft(run, after, task, worker, now, seconds);
    ScannedExecutes(run, after, task, worker, now, seconds);
    if task.None? {
      forall t | t in after.tasks && after.tasks[t].status.Open() ensures t in StrandedIn(run) {
        ClaimTaskPasses(run, worker, now, seconds, t);
      }
    }
  }

  lemma FinishRests(run: MemoryRun, task: WorkerTask, worker: AgentId, now: nat, results: nat, rejected: nat)
    requires Executes(run, task, worker, now)
    ensures var after := FinishTask(run, task.id, worker, results, rejected);
      Rests(after, now) && Spent(run, after) && Owns(run, task.id, worker)
  {
    LeftFalls(run.tasks, FinishTask(run, task.id, worker, results, rejected).tasks, run.order);
  }

  lemma FailRests(run: MemoryRun, task: WorkerTask, worker: AgentId, now: nat)
    requires Executes(run, task, worker, now)
    ensures var after := FailTask(run, task.id, worker); Rests(after, now) && Spent(run, after)
  {
    LeftFalls(run.tasks, FailTask(run, task.id, worker).tasks, run.order);
  }

  /** If only stranded tasks are open, they are the pending ones, and none is running. */
  lemma OnlyStrandedOpen(run: MemoryRun)
    requires forall t :: t in run.tasks && run.tasks[t].status.Open() ==> Stranded(run.tasks[t])
    ensures Summary(run).pending == |StrandedIn(run)| && Summary(run).running == 0
  {
    assert InStatus(run, Pending) == StrandedIn(run);
    assert InStatus(run, Running) == {};
  }
}
