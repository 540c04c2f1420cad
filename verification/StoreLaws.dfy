/** What the operations of the store keep and what they can change. */
module StoreLaws {
  import opened Contracts
  import opened StoreSpec

  /** Only the task records and the claim's bookkeeping differ. */
  ghost predicate SameOutbox(a: MemoryRun, b: MemoryRun) {
    && a.outbox == b.outbox && a.queue == b.queue && a.delivered == b.delivered && a.dead == b.dead
    && a.crmAccepted == b.crmAccepted && a.rejectedLimit == b.rejectedLimit
    && a.rejectedInvalid == b.rejectedInvalid && a.cap == b.cap && a.status == b.status
  }

  /** Every record of a listed task is built from one of its entries; the rest are untouched. */
  lemma {:induction false} Reloads(run: MemoryRun, specs: seq<ClaimedTask>, now: nat)
    ensures var after := Reload(run, specs, now);
      && SameOutbox(run, after) && after.baseline == run.baseline
      && after.worker == run.worker && after.token == run.token
      && (forall t :: t in after.tasks ==> Listed(specs, t) || (t in run.tasks && after.tasks[t] == run.tasks[t]))
      && (forall t :: t in run.tasks ==> t in after.tasks)
      && (forall j :: 0 <= j < |specs| ==> specs[j].id in after.tasks)
  {
    if |specs| > 0 {
      var most := specs[..|specs| - 1];
      Reloads(run, most, now);
      var s := specs[|specs| - 1];
      assert specs[|specs| - 1].id == s.id;
      forall t | Listed(most, t) ensures Listed(specs, t) {
        var j :| 0 <= j < |most| && most[j].id == t;
        assert specs[j].id == t;
      }
    }
  }

  ghost predicate BuiltFrom(r: TaskRecord, s: ClaimedTask, now: nat) {
    && r.maxAttempts == s.maxAttempts && r.source == s.source && r.owner == None
    && (r.status.Open() ==> r.status == s.status && r.attempts == s.attempts)
    && (r.status == Running ==> r.expires == Some(now))
  }

  lemma {:induction false} ReloadBuilds(run: MemoryRun, specs: seq<ClaimedTask>, now: nat, t: TaskId) returns (j: nat)
    requires Listed(specs, t)
    ensures j < |specs| && specs[j].id == t
    ensures t in Reload(run, specs, now).tasks && BuiltFrom(Reload(run, specs, now).tasks[t], specs[j], now)
  {
    var n := |specs| - 1;
    if specs[n].id == t {
      j := n;
    } else {
      var i :| 0 <= i < |specs| && specs[i].id == t;
      assert specs[..n][i].id == t;
      j := ReloadBuilds(run, specs[..n], now, t);
    }
  }

  /** With distinct ids each record is made from its own entry and the record it replaces. */
  lemma {:induction false} ReloadExact(run: MemoryRun, specs: seq<ClaimedTask>, now: nat, j: nat)
    requires DistinctIds(specs) && j < |specs|
    ensures specs[j].id in Reload(run, specs, now).tasks
    ensures Reload(run, specs, now).tasks[specs[j].id]
      == FromClaim(specs[j], Lookup(run.tasks, specs[j].id), QueuedCompletion(run, specs[j].id), now)
  {
    var n := |specs| - 1;
    Reloads(run, specs[..n], now);
    if j < n {
      assert specs[..n][j] == specs[j];
      ReloadExact(run, specs[..n], now, j);
    }
  }

  lemma EnsureExact(run: MemoryRun, claim: Claim, worker: Option<AgentId>, now: nat, j: nat)
    requires DistinctIds(claim.tasks) && j < |claim.tasks|
    ensures var t := claim.tasks[j].id; var after := EnsureRun(run, claim, worker, now);
      && t in after.tasks
      && after.tasks[t] == FromClaim(claim.tasks[j], Lookup(run.tasks, t), QueuedCompletion(run, t), now)
  {
    ReloadExact(run, claim.tasks, now, j);
    assert Listed(claim.tasks, claim.tasks[j].id);
  }

  /** After a claim is loaded, an open task carries the status and attempts of an entry of the claim. */
  lemma EnsureOpens(run: MemoryRun, claim: Claim, worker: Option<AgentId>, now: nat, t: TaskId) returns (j: nat)
    requires t in EnsureRun(run, claim, worker, now).tasks && EnsureRun(run, claim, worker, now).tasks[t].status.Open()
    ensures j < |claim.tasks| && claim.tasks[j].id == t
    ensures BuiltFrom(EnsureRun(run, claim, worker, now).tasks[t], claim.tasks[j], now)
  {
    assert Listed(claim.tasks, t);
    j := ReloadBuilds(run, claim.tasks, now, t);
  }

  lemma EnsureKeepsOutbox(run: MemoryRun, claim: Claim, worker: Option<AgentId>, now: nat)
    ensures SameOutbox(run, EnsureRun(run, claim, worker, now))
    ensures EnsureRun(run, claim, worker, now).baseline == Max(run.baseline, claim.candidatesFound)
  {
    Reloads(run, claim.tasks, now);
  }

  // ---------- claim_task ----------

  /** Records other than the one taken are untouched or given up; the one taken had attempts left. */
  ghost predicate Scanned(run: MemoryRun, after: MemoryRun, task: Option<WorkerTask>, worker: AgentId, now: nat, seconds: nat) {
    && after == run.(tasks := after.tasks) && after.tasks.Keys == run.tasks.Keys
    && (forall t :: t in run.tasks && task != None && t == task.value.id ==>
          Takable(run.tasks[t], now) && after.tasks[t] == Taken(run.tasks[t], worker, now, seconds))
    && (task.Some? ==> task.value.id in run.tasks)
    && (task.Some? ==> task.value == WorkerTask(
          task.value.id, run.tasks[task.value.id].source,
          run.tasks[task.value.id].attempts + 1, run.tasks[task.value.id].maxAttempts))
    && (forall t :: t in run.tasks && (task.Some? ==> t != task.value.id) ==>
          after.tasks[t] == run.tasks[t]
          || (Expired(run.tasks[t], now) && run.tasks[t].attempts >= run.tasks[t].maxAttempts
              && after.tasks[t] == GiveUp(run.tasks[t])))
  }

  lemma {:induction false} ScanTakes(run: MemoryRun, ids: seq<TaskId>, worker: AgentId, now: nat, seconds: nat)
    ensures Scanned(run, Scan(run, ids, worker, now, seconds).0, Scan(run, ids, worker, now, seconds).1, worker, now, seconds)
    decreases ids
  {
    if |ids| > 0 {
      if ids[0] !in run.tasks {
        ScanTakes(run, ids[1..], worker, now, seconds);
      } else {
        var r := run.tasks[ids[0]];
        if Expired(r, now) && r.attempts >= r.maxAttempts {
          var next := run.(tasks := run.tasks[ids[0] := GiveUp(r)]);
          ScanTakes(next, ids[1..], worker, now, seconds);
          var (after, task) := Scan(next, ids[1..], worker, now, seconds);
          assert Scan(run, ids, worker, now, seconds) == (after, task);
          assert !Takable(GiveUp(r), now) && !Expired(GiveUp(r), now);
          assert after.tasks[ids[0]] == GiveUp(r);
        } else if !Takable(r, now) {
          ScanTakes(run, ids[1..], worker, now, seconds);
        }
      }
    }
  }

  lemma ClaimTaskTakes(run: MemoryRun, worker: AgentId, now: nat, seconds: nat)
    ensures Scanned(run, ClaimTask(run, worker, now, seconds).0, ClaimTask(run, worker, now, seconds).1, worker, now, seconds)
  {
    ScanTakes(run, ByPriority(run), worker, now, seconds);
  }

  /** Nothing is left for claim_task to take or to give up. */
  predicate Passed(r: TaskRecord, now: nat) {
    !Expired(r, now) && (r.status == Pending ==> r.attempts >= r.maxAttempts)
  }

  lemma {:induction false} ScanPasses(run: MemoryRun, ids: seq<TaskId>, worker: AgentId, now: nat, seconds: nat, t: TaskId)
    requires Scan(run, ids, worker, now, seconds).1 == None && t in ids && t in run.tasks
    ensures t in Scan(run, ids, worker, now, seconds).0.tasks
    ensures Passed(Scan(run, ids, worker, now, seconds).0.tasks[t], now)
    decreases ids
  {
    var next := if ids[0] in run.tasks && Expired(run.tasks[ids[0]], now) && run.tasks[ids[0]].attempts >= run.tasks[ids[0]].maxAttempts
                then run.(tasks := run.tasks[ids[0] := GiveUp(run.tasks[ids[0]])]) else run;
    ScanTakes(next, ids[1..], worker, now, seconds);
    if t in ids[1..] { ScanPasses(next, ids[1..], worker, now, seconds, t); }
  }

  lemma {:induction false} OfHas(run: MemoryRun, ids: seq<TaskId>, t: TaskId)
    requires t in ids && t in run.tasks
    ensures t in Of(run, ids, run.tasks[t].source)
  {
    if t != ids[0] { OfHas(run, ids[1..], t); }
  }

  function Rank(source: SourceName): nat {
    match source
    case GooglePlaces => 0
    case BraveSearch => 1
    case OfficialWebsite => 2
  }

  lemma {:induction false} OfOnly(run: MemoryRun, ids: seq<TaskId>, source: SourceName)
    ensures forall t :: t in Of(run, ids, source) ==> t in ids && t in run.tasks && run.tasks[t].source == source
  {
    if |ids| > 0 { OfOnly(run, ids[1..], source); }
  }

  lemma {:induction false} OfAppends(run: MemoryRun, a: seq<TaskId>, b: seq<TaskId>, source: SourceName)
    ensures Of(run, a + b, source) == Of(run, a, source) + Of(run, b, source)
  {
    if |a| == 0 {
      assert a + b == b;
    } else {
      assert (a + b)[1..] == a[1..] + b;
      OfAppends(run, a[1..], b, source);
    }
  }

  lemma {:induction false} OfAgain(run: MemoryRun, ids: seq<TaskId>, source: SourceName, other: SourceName)
    ensures Of(run, Of(run, ids, source), other) == if other == source then Of(run, ids, source) else []
  {
    if |ids| > 0 {
      OfAgain(run, ids[1..], source, other);
      var first := if ids[0] in run.tasks && run.tasks[ids[0]].source == source then [ids[0]] else [];
      OfAppends(run, first, Of(run, ids[1..], source), other);
    }
  }

  lemma ByPriorityIsStable(run: MemoryRun, source: SourceName)
    ensures Of(run, ByPriority(run), source) == Of(run, run.order, source)
  {
    var g, b, w := Of(run, run.order, GooglePlaces), Of(run, run.order, BraveSearch), Of(run, run.order, OfficialWebsite);
    OfAppends(run, g + b, w, source);
    OfAppends(run, g, b, source);
    OfAgain(run, run.order, GooglePlaces, source);
    OfAgain(run, run.order, BraveSearch, source);
    OfAgain(run, run.order, OfficialWebsite, source);
    hide Of;
    match source
    case GooglePlaces =>
    case BraveSearch =>
    case OfficialWebsite =>
  }

  /** `ByPriority` is the stable sort of the tasks by the rank of their source. */
  lemma ByPriorityIsStableSort(run: MemoryRun)
    ensures var ids := ByPriority(run);
      && (forall t :: t in ids <==> t in run.order && t in run.tasks)
      && (forall i, j :: 0 <= i < j < |ids| ==> Rank(run.tasks[ids[i]].source) <= Rank(run.tasks[ids[j]].source))
      && (forall source :: Of(run, ids, source) == Of(run, run.order, source))
  {
    hide Of;
    OfOnly(run, run.order, GooglePlaces);
    OfOnly(run, run.order, BraveSearch);
    OfOnly(run, run.order, OfficialWebsite);
    forall t | t in run.order && t in run.tasks ensures t in ByPriority(run) { InPriority(run, t); }
    forall source ensures Of(run, ByPriority(run), source) == Of(run, run.order, source) { ByPriorityIsStable(run, source); }
  }

  lemma InPriority(run: MemoryRun, t: TaskId)
    requires t in run.order && t in run.tasks
    ensures t in ByPriority(run)
  {
    OfHas(run, run.order, t);
    match run.tasks[t].source
    case GooglePlaces =>
    case BraveSearch =>
    case OfficialWebsite =>
  }

  lemma ClaimTaskPasses(run: MemoryRun, worker: AgentId, now: nat, seconds: nat, t: TaskId)
    requires ClaimTask(run, worker, now, seconds).1 == None && t in run.order && t in run.tasks
    ensures t in ClaimTask(run, worker, now, seconds).0.tasks
    ensures Passed(ClaimTask(run, worker, now, seconds).0.tasks[t], now)
  {
    InPriority(run, t);
    ScanPasses(run, ByPriority(run), worker, now, seconds, t);
  }

  /** Right after a claim is loaded no task is owned. */
  lemma EnsureUnowned(run: MemoryRun, claim: Claim, worker: Option<AgentId>, now: nat, t: TaskId)
    requires t in EnsureRun(run, claim, worker, now).tasks
    ensures EnsureRun(run, claim, worker, now).tasks[t].owner == None
  {
    if Listed(claim.tasks, t) { var _ := ReloadBuilds(run, claim.tasks, now, t); }
  }

  // ---------- the order of the tasks ----------

  /** Every record is listed. */
  ghost predicate Ordered(run: MemoryRun) { forall t :: t in run.tasks ==> t in run.order }

  lemma {:induction false} ReloadOrders(run: MemoryRun, specs: seq<ClaimedTask>, now: nat)
    requires Ordered(run)
    ensures Ordered(Reload(run, specs, now))
  {
    if |specs| > 0 { ReloadOrders(run, specs[..|specs| - 1], now); }
  }

  // ---------- how much work is left ----------

  function LeftOf(r: TaskRecord): nat { if r.status.Open() && r.attempts < r.maxAttempts then r.maxAttempts - r.attempts else 0 }

  /** The attempts that unfinished tasks still have. */
  function Left(tasks: map<TaskId, TaskRecord>, ids: seq<TaskId>): nat {
    if |ids| == 0 then 0
    else (if ids[0] in tasks then LeftOf(tasks[ids[0]]) else 0) + Left(tasks, ids[1..])
  }

  lemma {:induction false} LeftFalls(a: map<TaskId, TaskRecord>, b: map<TaskId, TaskRecord>, ids: seq<TaskId>)
    requires b.Keys == a.Keys && forall t :: t in a ==> LeftOf(b[t]) <= LeftOf(a[t])
    ensures Left(b, ids) <= Left(a, ids)
    ensures (exists t :: t in ids && t in a && LeftOf(b[t]) < LeftOf(a[t])) ==> Left(b, ids) < Left(a, ids)
  {
    if |ids| > 0 { LeftFalls(a, b, ids[1..]); }
  }

  // ---------- validity ----------

  lemma {:induction false} ReloadValid(run: MemoryRun, specs: seq<ClaimedTask>, now: nat)
    requires Valid(run)
    ensures Valid(Reload(run, specs, now))
  {
    if |specs| > 0 { ReloadValid(run, specs[..|specs| - 1], now); }
  }

  /** A valid record whose messages all belong to the run. */
  ghost predicate Sound(r: RunId, run: MemoryRun) {
    Valid(run) && Rooted(run) && forall k :: k in run.outbox ==> k.Owner() == r
  }

  lemma SoundValid(r: RunId, run: MemoryRun)
    requires Sound(r, run)
    ensures Valid(run) && NoRepeats(run.order) && (forall t :: t in run.order <==> t in run.tasks)
  {
  }

  lemma ValidOrder(run: MemoryRun)
    requires Valid(run)
    ensures NoRepeats(run.order) && forall t :: t in run.order <==> t in run.tasks
  {
  }

  lemma AppendsOnce<T>(s: seq<T>, x: T)
    requires NoRepeats(s) && x !in s
    ensures NoRepeats(s + [x])
  {
  }

  lemma NewSound(r: RunId, cap: nat)
    ensures Sound(r, NewMemoryRun(cap))
  {
  }

  lemma SoundRooted(r: RunId, run: MemoryRun)
    requires Sound(r, run)
    ensures Rooted(run) && forall k :: k in run.outbox ==> k.Owner() == r
  {
  }

  lemma TasksSound(r: RunId, a: MemoryRun, b: MemoryRun)
    requires Sound(r, a) && b.tasks.Keys == a.tasks.Keys && b.order == a.order
    requires b.outbox == a.outbox && b.queue == a.queue && b.delivered == a.delivered && b.dead == a.dead
    ensures Sound(r, b)
  {
  }

  lemma MarksSound(r: RunId, a: MemoryRun, b: MemoryRun, k: Key)
    requires Sound(r, a) && b.tasks == a.tasks && b.order == a.order && b.outbox == a.outbox && b.queue == a.queue && k in a.outbox
    requires a.delivered <= b.delivered <= a.delivered + {k} && b.dead <= a.dead + {k}
    ensures Sound(r, b)
  {
  }

  lemma PutSound(r: RunId, run: MemoryRun, k: Key, p: Payload)
    requires Sound(r, run) && k.Owner() == r && !k.SplitKey?
    ensures Sound(r, Put(run, k, p))
  {
    PutValid(run, k, p);
    hide Valid;
  }

  lemma PutValid(run: MemoryRun, k: Key, p: Payload)
    requires Valid(run)
    ensures Valid(Put(run, k, p))
  {
    var after := Put(run, k, p);
    assert after.tasks == run.tasks && after.order == run.order;
    assert forall m :: m in after.queue <==> m in run.queue || m == k;
  }

  lemma SplitValid(run: MemoryRun, k: Key)
    requires Valid(run) && CanSplit(run, k)
    ensures Valid(Split(run, k))
  {
    var batch := run.outbox[k].batch;
    var one := PutNew(run, SplitKey(k, 0), Candidates(Half(batch, 0)));
    PutValid(run, SplitKey(k, 0), Candidates(Half(batch, 0)));
    var two := PutNew(one, SplitKey(k, 1), Candidates(Half(batch, 1)));
    PutValid(one, SplitKey(k, 1), Candidates(Half(batch, 1)));
    MarksValid(two, Split(run, k), k);
  }

  lemma MarksValid(a: MemoryRun, b: MemoryRun, k: Key)
    requires Valid(a) && b.tasks == a.tasks && b.order == a.order && b.outbox == a.outbox && b.queue == a.queue && k in a.outbox
    requires b.delivered <= a.delivered + {k} && b.dead <= a.dead + {k}
    ensures Valid(b)
  {
  }

  /** The halves of a message belong to its run, and splitting lists each new key once. */
  lemma SplitSound(r: RunId, run: MemoryRun, k: Key)
    requires Sound(r, run) && CanSplit(run, k)
    ensures Sound(r, Split(run, k))
  {
    hide Valid, Half;
    SplitValid(run, k);
  }

  lemma {:induction false} EnsureSound(r: RunId, run: MemoryRun, claim: Claim, worker: Option<AgentId>, now: nat)
    requires Sound(r, run)
    ensures Sound(r, EnsureRun(run, claim, worker, now))
  {
    ReloadValid(run, claim.tasks, now);
    Reloads(run, claim.tasks, now);
    TasksSound(r, Reload(run, claim.tasks, now), EnsureRun(run, claim, worker, now));
  }

  // ---------- retries ----------

  lemma {:induction false} PowersPositive(n: nat)
    ensures Pow2(n) >= 1
  {
    if n > 0 { PowersPositive(n - 1); }
  }

  lemma {:induction false} PowersGrow(m: nat, n: nat)
    requires m <= n
    ensures 1 <= Pow2(m) <= Pow2(n)
    decreases n - m
  {
    if m < n { PowersGrow(m, n - 1); } else if n > 0 { PowersPositive(n); }
  }

  /** Waiting times never shrink, and at 256 seconds they stop growing: the limit of 300 is never reached. */
  lemma BackoffGrows(m: nat, n: nat)
    requires m <= n
    ensures Backoff(m) <= Backoff(n) <= 256
    ensures n >= 8 ==> Backoff(n) == 256
    ensures n < 8 ==> Backoff(n + 1) == 2 * Backoff(n)
  {
    assert Pow2(8) == 256 by {
      assert Pow2(4) == 16;
      assert Pow2(8) == 16 * Pow2(4);
    }
    PowersGrow(Min(m, 8), Min(n, 8));
    PowersGrow(Min(n, 8), 8);
  }

  // ---------- the summary ----------

  lemma SizesAdd(a: set<TaskId>, b: set<TaskId>)
    requires a !! b
    ensures |a + b| == |a| + |b|
  {
  }

  lemma StatusesDiffer(run: MemoryRun, s: TaskStatus, t: TaskStatus)
    requires s != t
    ensures InStatus(run, s) !! InStatus(run, t)
  {
  }

  /** Every task has one of the five statuses, and only one. */
  lemma StatusesCover(run: MemoryRun)
    ensures run.tasks.Keys == InStatus(run, Pending) + InStatus(run, Running) + InStatus(run, Completed) + InStatus(run, Failed)
                              + InStatus(run, Cancelled)
  {
    forall t | t in run.tasks ensures t in InStatus(run, run.tasks[t].status) {}
  }

  lemma StatusesAdd(run: MemoryRun)
    ensures |run.tasks.Keys| == Count(run, Pending) + Count(run, Running) + Count(run, Completed) + Count(run, Failed) + Count(run, Cancelled)
  {
    StatusesCover(run);
    forall s: TaskStatus, t: TaskStatus | s != t ensures InStatus(run, s) !! InStatus(run, t) { StatusesDiffer(run, s, t); }
    hide InStatus;
    SizesAdd(InStatus(run, Pending), InStatus(run, Running));
    SizesAdd(InStatus(run, Pending) + InStatus(run, Running), InStatus(run, Completed));
    SizesAdd(InStatus(run, Pending) + InStatus(run, Running) + InStatus(run, Completed), InStatus(run, Failed));
    SizesAdd(InStatus(run, Pending) + InStatus(run, Running) + InStatus(run, Completed) + InStatus(run, Failed), InStatus(run, Cancelled));
  }

  /** The summary counts every task once. */
  lemma SummaryCountsEveryTask(run: MemoryRun)
    ensures var s := Summary(run); s.pending + s.running + s.completed + s.failed + s.cancelled == |run.tasks|
  {
    StatusesAdd(run);
    hide Count, LimitedMessages;
  }
}
