/** `MemoryWorkerStore` (app/prospecting/store.py): the runs of one worker process, changed in place.

    Each method is proved equal to the function of `StoreSpec` that the protocol uses. The clock reading is a
    parameter; a run is found by the key of its message, or as the first run that has the task. */
module MemoryStore {
  import opened Contracts
  import opened StoreSpec
  import opened StoreLaws

  datatype Replay = Replay(run: RunId, worker: AgentId, token: Token, key: Key)

  // ---------- what the queries return ----------

  function DueKeys(run: MemoryRun, keys: seq<Key>, now: nat): seq<Key> {
    if |keys| == 0 then []
    else DueKeys(run, keys[..|keys| - 1], now) + if Due(run, keys[|keys| - 1], now) then [keys[|keys| - 1]] else []
  }

  lemma {:induction false} DueKeysAre(run: MemoryRun, keys: seq<Key>, now: nat)
    ensures forall k :: k in DueKeys(run, keys, now) <==> k in keys && Due(run, k, now)
    ensures NoRepeats(keys) ==> NoRepeats(DueKeys(run, keys, now))
  {
    if |keys| > 0 {
      DueKeysAre(run, keys[..|keys| - 1], now);
      assert keys == keys[..|keys| - 1] + [keys[|keys| - 1]];
    }
  }

  /** The messages come in the order of the queue. */
  lemma {:induction false} DueKeysInOrder(run: MemoryRun, keys: seq<Key>, now: nat, i: nat, j: nat) returns (m: nat, n: nat)
    requires i < j < |DueKeys(run, keys, now)|
    ensures m < n < |keys| && keys[m] == DueKeys(run, keys, now)[i] && keys[n] == DueKeys(run, keys, now)[j]
  {
    var most := keys[..|keys| - 1];
    var due := DueKeys(run, most, now);
    if j < |due| {
      m, n := DueKeysInOrder(run, most, now, i, j);
    } else {
      DueKeysAre(run, most, now);
      assert due[i] in most;
      m :| 0 <= m < |most| && most[m] == due[i];
      n := |keys| - 1;
    }
  }

  /** The messages that get_outbox returns are due and distinct, and there are none only if none is due. */
  lemma DueMessages(run: MemoryRun, now: nat, limit: nat)
    requires Valid(run)
    ensures var due := DueKeys(run, run.queue, now); var keys := due[..Min(limit, |due|)];
      && (forall i, j :: 0 <= i < j < |keys| ==> keys[i] != keys[j])
      && (forall j :: 0 <= j < |keys| ==> Queued(run, keys[j]))
      && (limit > 0 && |keys| == 0 ==> forall k :: !Due(run, k, now))
  {
    DueKeysAre(run, run.queue, now);
    var due := DueKeys(run, run.queue, now);
    assert NoRepeats(due);
    forall j | 0 <= j < |due| ensures Queued(run, due[j]) { assert due[j] in due; }
    assert forall k :: Due(run, k, now) ==> k in run.queue;
  }

  predicate AwaitsReplay(run: MemoryRun, k: Key) { Queued(run, k) && run.outbox[k].Terminal() }

  function ReplaysOf(r: RunId, run: MemoryRun, keys: seq<Key>): seq<Replay> {
    if |keys| == 0 || run.worker.None? || run.token.None? then []
    else ReplaysOf(r, run, keys[..|keys| - 1])
         + if AwaitsReplay(run, keys[|keys| - 1]) then [Replay(r, run.worker.value, run.token.value, keys[|keys| - 1])] else []
  }

  function Replays(runs: map<RunId, MemoryRun>, order: seq<RunId>): seq<Replay>
    requires forall r :: r in order ==> r in runs
  {
    if |order| == 0 then []
    else Replays(runs, order[..|order| - 1]) + ReplaysOf(order[|order| - 1], runs[order[|order| - 1]], runs[order[|order| - 1]].queue)
  }

  lemma {:induction false} ReplaysOfAre(r: RunId, run: MemoryRun, keys: seq<Key>)
    ensures forall x :: x in ReplaysOf(r, run, keys) <==>
              x.run == r && run.worker == Some(x.worker) && run.token == Some(x.token) && x.key in keys && AwaitsReplay(run, x.key)
  {
    if |keys| > 0 && run.worker.Some? && run.token.Some? {
      ReplaysOfAre(r, run, keys[..|keys| - 1]);
      assert keys == keys[..|keys| - 1] + [keys[|keys| - 1]];
    }
  }

  /** Replayed are exactly the terminal messages that are neither delivered nor buried, of each run that knows its worker and
      its token, with these. */
  lemma {:induction false} ReplaysAre(runs: map<RunId, MemoryRun>, order: seq<RunId>)
    requires forall r :: r in order ==> r in runs
    ensures forall x :: x in Replays(runs, order) <==>
              && x.run in order && runs[x.run].worker == Some(x.worker) && runs[x.run].token == Some(x.token)
              && x.key in runs[x.run].queue && x.key in runs[x.run].outbox && x.key !in runs[x.run].delivered && x.key !in runs[x.run].dead
              && (runs[x.run].outbox[x.key].Complete? || runs[x.run].outbox[x.key].Fail?)
  {
    if |order| > 0 {
      var most, r := order[..|order| - 1], order[|order| - 1];
      ReplaysAre(runs, most);
      ReplaysOfAre(r, runs[r], runs[r].queue);
      assert order == most + [r];
    }
  }

  function FirstWith(runs: map<RunId, MemoryRun>, order: seq<RunId>, t: TaskId): Option<RunId> {
    if |order| == 0 then None
    else if order[0] in runs && t in runs[order[0]].tasks then Some(order[0])
    else FirstWith(runs, order[1..], t)
  }

  ghost predicate CompletedIn(run: MemoryRun, keys: set<Key>, t: TaskId) {
    exists k, j :: k in keys && Queued(run, k) && run.outbox[k].Events? && 0 <= j < |run.outbox[k].events|
                   && Completes(run.outbox[k].events[j], t)
  }

  lemma CompletedGrows(run: MemoryRun, keys: set<Key>, k: Key, t: TaskId)
    ensures CompletedIn(run, keys + {k}, t) <==>
              CompletedIn(run, keys, t)
              || (Queued(run, k) && run.outbox[k].Events? && exists j :: 0 <= j < |run.outbox[k].events| && Completes(run.outbox[k].events[j], t))
  {
    if CompletedIn(run, keys, t) {
      var m, j :| m in keys && Queued(run, m) && run.outbox[m].Events? && 0 <= j < |run.outbox[m].events|
                  && Completes(run.outbox[m].events[j], t);
      assert m in keys + {k} && Completes(run.outbox[m].events[j], t);
    }
  }

  /** Runs other than r are untouched. */
  ghost predicate Becomes(before: map<RunId, MemoryRun>, after: map<RunId, MemoryRun>, r: RunId, run: MemoryRun) {
    r in before && after == before[r := run]
  }

  class MemoryWorkerStore {
    var order: seq<RunId>  // the runs in the order they were first claimed
    var runs: map<RunId, MemoryRun>

    ghost predicate Valid()
      reads this
    {
      && NoRepeats(order) && (forall r :: r in order <==> r in runs)
      && forall r :: r in runs ==> Sound(r, runs[r])
    }

    constructor ()
      ensures Valid() && order == [] && runs == map[]
    {
      order, runs := [], map[];
    }

    // ---------- claims of a run ----------

    /** The tasks that a queued event reports completed (lines 160-178). */
    static method CompletedTaskIds(run: MemoryRun) returns (ids: set<TaskId>)
      requires StoreSpec.Valid(run)
      ensures forall t :: t in ids <==> QueuedCompletion(run, t)
    {
      ids := {};
      ghost var seen: set<Key> := {};
      for n := 0 to |run.queue|
        invariant forall k :: k in seen <==> k in run.queue[..n]
        invariant forall t :: t in ids <==> CompletedIn(run, seen, t)
      {
        var k := run.queue[n];
        assert k in run.queue;
        ghost var before := ids;
        if k !in run.delivered && k !in run.dead && run.outbox[k].Events? {
          var events := run.outbox[k].events;
          for m := 0 to |events|
            invariant forall t :: t in ids <==> t in before || exists j :: 0 <= j < m && Completes(events[j], t)
          {
            if events[m].status == Some(Completed) && events[m].task.Some? {
              ids := ids + {events[m].task.value};
            }
          }
        }
        forall t { CompletedGrows(run, seen, k, t); }
        seen := seen + {k};
      }
      assert forall k :: Queued(run, k) ==> k in run.queue;
    }

    /** The loop over the claimed specifications; `ids` lists the records in insertion order. */
    static method LoadTasks(run: MemoryRun, specs: seq<ClaimedTask>, now: nat)
      returns (tasks: map<TaskId, TaskRecord>, ids: seq<TaskId>, remote: set<TaskId>)
      requires StoreSpec.Valid(run)
      ensures Reload(run, specs, now) == run.(tasks := tasks, order := ids)
      ensures forall t :: t in remote <==> Listed(specs, t)
    {
      var queued := CompletedTaskIds(run);
      hide StoreSpec.Valid, QueuedCompletion;
      tasks, ids, remote := run.tasks, run.order, {};
      for n := 0 to |specs|
        invariant Reload(run, specs[..n], now) == run.(tasks := tasks, order := ids)
        invariant forall t :: t in remote <==> Listed(specs[..n], t)
      {
        assert specs[..n + 1][..n] == specs[..n];
        var spec := specs[n];
        ListedNext(specs, n);
        remote := remote + {spec.id};
        var existing := Lookup(tasks, spec.id);
        var keep := existing.Some? && existing.value.status == Completed && spec.status.Open() && spec.id in queued;
        var status := if keep then existing.value.status else spec.status;
        var attempts := if keep then existing.value.attempts else spec.attempts;
        ids := if spec.id in tasks then ids else ids + [spec.id];
        tasks := tasks[spec.id := TaskRecord(spec.source, attempts, spec.maxAttempts, status, None,
                                             if status == Running then Some(now) else None, spec.found, spec.discarded)];
      }
      assert specs[..|specs|] == specs;
    }

    /** The loop that withdraws the tasks that the claim no longer lists. */
    static method WithdrawMissing(loaded: map<TaskId, TaskRecord>, ids: seq<TaskId>, remote: set<TaskId>)
      returns (tasks: map<TaskId, TaskRecord>)
      requires NoRepeats(ids) && forall t :: t in ids <==> t in loaded
      ensures tasks == map t | t in loaded :: if t in remote then loaded[t] else Withdrawn(loaded[t])
    {
      tasks := loaded;
      for n := 0 to |ids|
        invariant tasks.Keys == loaded.Keys
        invariant forall m :: 0 <= m < n ==> tasks[ids[m]] == if ids[m] in remote then loaded[ids[m]] else Withdrawn(loaded[ids[m]])
        invariant forall m :: n <= m < |ids| ==> tasks[ids[m]] == loaded[ids[m]]
      {
        if ids[n] !in remote {
          tasks := tasks[ids[n] := tasks[ids[n]].(status := Cancelled, owner := None, expires := None)];
        }
      }
    }

    static lemma EnsureAssembles(run: MemoryRun, claim: Claim, worker: Option<AgentId>, now: nat,
        loaded: map<TaskId, TaskRecord>, ids: seq<TaskId>, remote: set<TaskId>, tasks: map<TaskId, TaskRecord>)
      requires Reload(run, claim.tasks, now) == run.(tasks := loaded, order := ids)
      requires forall t :: t in remote <==> Listed(claim.tasks, t)
      requires tasks == map t | t in loaded :: if t in remote then loaded[t] else Withdrawn(loaded[t])
      ensures StoreSpec.EnsureRun(run, claim, worker, now)
        == run.(tasks := tasks, order := ids, baseline := Max(run.baseline, claim.candidatesFound),
                worker := if worker.Some? then worker else run.worker, token := Some(claim.token))
    {
      assert tasks == StoreSpec.EnsureRun(run, claim, worker, now).tasks;
    }

    method EnsureRun(r: RunId, cap: nat, claim: Claim, worker: Option<AgentId>, now: nat)
      requires Valid()
      modifies this
      ensures Valid() && order == if r in old(runs) then old(order) else old(order) + [r]
      ensures runs == old(runs)[r := StoreSpec.EnsureRun(if r in old(runs) then old(runs[r]) else NewMemoryRun(cap), claim, worker, now)]
    {
      hide Sound, Reload, NoRepeats, StoreSpec.Valid, StoreSpec.EnsureRun, Listed;
      var run := if r in runs then runs[r] else NewMemoryRun(cap);
      NewSound(r, cap);
      EnsureSound(r, run, claim, worker, now);
      SoundValid(r, run);
      var loaded, ids, remote := LoadTasks(run, claim.tasks, now);
      ReloadValid(run, claim.tasks, now);
      ValidOrder(run.(tasks := loaded, order := ids));
      var tasks := WithdrawMissing(loaded, ids, remote);
      EnsureAssembles(run, claim, worker, now, loaded, ids, remote, tasks);
      if r !in runs {
        AppendsOnce(order, r);
        order := order + [r];
      }
      runs := runs[r := run.(tasks := tasks, order := ids, baseline := Max(run.baseline, claim.candidatesFound),
                             worker := if worker.Some? then worker else run.worker, token := Some(claim.token))];
    }

    static lemma ListedNext(specs: seq<ClaimedTask>, n: nat)
      requires n < |specs|
      ensures forall t :: Listed(specs[..n + 1], t) <==> Listed(specs[..n], t) || t == specs[n].id
    {
      forall t ensures Listed(specs[..n + 1], t) <==> Listed(specs[..n], t) || t == specs[n].id {
        if Listed(specs[..n], t) {
          var i :| 0 <= i < n && specs[..n][i].id == t;
          assert specs[..n + 1][i].id == t;
        }
        if t == specs[n].id { assert specs[..n + 1][n].id == t; }
        if Listed(specs[..n + 1], t) && t != specs[n].id {
          var i :| 0 <= i < n + 1 && specs[..n + 1][i].id == t;
          assert specs[..n][i].id == t;
        }
      }
    }

    // ---------- tasks ----------

    method ClaimTask(r: RunId, worker: AgentId, now: nat, seconds: nat) returns (task: Option<WorkerTask>)
      requires Valid() && r in runs
      modifies this`runs
      ensures Valid() && task == StoreSpec.ClaimTask(old(runs[r]), worker, now, seconds).1
      ensures Becomes(old(runs), runs, r, StoreSpec.ClaimTask(old(runs[r]), worker, now, seconds).0)
    {
      hide Sound, ByPriority;
      var ids := ByPriority(runs[r]);
      for n := 0 to |ids|
        invariant Valid()
        invariant r in runs && runs == old(runs)[r := runs[r]] && runs[r] == old(runs[r]).(tasks := runs[r].tasks)
        invariant runs[r].tasks.Keys == old(runs[r]).tasks.Keys
        invariant Scan(runs[r], ids[n..], worker, now, seconds) == StoreSpec.ClaimTask(old(runs[r]), worker, now, seconds)
      {
        assert ids[n..][1..] == ids[n + 1..];
        if ids[n] !in runs[r].tasks { continue; }
        var record := runs[r].tasks[ids[n]];
        var expired := record.status == Running && record.expires.Some? && record.expires.value <= now;
        if expired && record.attempts >= record.maxAttempts {
          record := record.(status := Failed, owner := None);
          UpdateTask(r, ids[n], record);
          continue;
        }
        if !(record.status == Pending || expired) || record.attempts >= record.maxAttempts { continue; }
        task := Some(WorkerTask(ids[n], record.source, record.attempts + 1, record.maxAttempts));
        record := record.(attempts := record.attempts + 1, status := Running, owner := Some(worker), expires := Some(now + seconds));
        UpdateTask(r, ids[n], record);
        return;
      }
      task := None;
    }

    method RunOfTask(t: TaskId) returns (r: Option<RunId>)
      requires Valid()
      ensures r == FirstWith(runs, order, t)
      ensures r.Some? ==> r.value in runs && t in runs[r.value].tasks
    {
      for n := 0 to |order|
        invariant FirstWith(runs, order[n..], t) == FirstWith(runs, order, t)
      {
        assert order[n..][1..] == order[n + 1..];
        if t in runs[order[n]].tasks { return Some(order[n]); }
      }
      r := None;
    }

    method UpdateTask(r: RunId, t: TaskId, record: TaskRecord)
      requires Valid() && r in runs && t in runs[r].tasks
      modifies this`runs
      ensures Valid() && Becomes(old(runs), runs, r, old(runs[r]).(tasks := old(runs[r]).tasks[t := record]))
    {
      hide Sound;
      var run := runs[r];
      TasksSound(r, run, run.(tasks := run.tasks[t := record]));
      runs := runs[r := run.(tasks := run.tasks[t := record])];
    }

    method HeartbeatTask(t: TaskId, worker: AgentId, now: nat, seconds: nat) returns (held: bool)
      requires Valid()
      modifies this`runs
      ensures Valid()
      ensures FirstWith(old(runs), order, t).None? ==> !held && runs == old(runs)
      ensures FirstWith(old(runs), order, t).Some? ==>
        var r := FirstWith(old(runs), order, t).value;
        && r in old(runs) && t in old(runs)[r].tasks
        && held == (Owns(old(runs)[r], t, worker) && old(runs)[r].tasks[t].status == Running)
        && Becomes(old(runs), runs, r, StoreSpec.HeartbeatTask(old(runs)[r], t, worker, now, seconds))
    {
      hide Sound;
      var found := RunOfTask(t);
      if found.None? { return false; }
      var r := found.value;
      var record := runs[r].tasks[t];
      if record.status != Running || record.owner != Some(worker) { return false; }
      record := record.(expires := Some(now + seconds));
      UpdateTask(r, t, record);
      held := true;
    }

    /** The result is false where the source raises: an unknown task, or a lease that another worker holds. */
    method FinishTask(t: TaskId, worker: AgentId, results: nat, rejected: nat) returns (ok: bool)
      requires Valid()
      modifies this`runs
      ensures Valid()
      ensures FirstWith(old(runs), order, t).None? ==> !ok && runs == old(runs)
      ensures FirstWith(old(runs), order, t).Some? ==>
        var r := FirstWith(old(runs), order, t).value;
        && r in old(runs) && ok == Owns(old(runs)[r], t, worker)
        && Becomes(old(runs), runs, r, StoreSpec.FinishTask(old(runs)[r], t, worker, results, rejected))
    {
      hide Sound;
      var found := RunOfTask(t);
      if found.None? { return false; }
      var r := found.value;
      var record := runs[r].tasks[t];
      if record.owner != Some(worker) { return false; }
      record := record.(status := Completed, results := results, rejected := rejected, owner := None);
      UpdateTask(r, t, record);
      ok := true;
    }

    method FailTask(t: TaskId, worker: AgentId) returns (known: bool)
      requires Valid()
      modifies this`runs
      ensures Valid()
      ensures FirstWith(old(runs), order, t).None? ==> !known && runs == old(runs)
      ensures FirstWith(old(runs), order, t).Some? ==>
        var r := FirstWith(old(runs), order, t).value;
        && r in old(runs) && known
        && Becomes(old(runs), runs, r, StoreSpec.FailTask(old(runs)[r], t, worker))
    {
      hide Sound;
      var found := RunOfTask(t);
      if found.None? { return false; }
      var r := found.value;
      var record := runs[r].tasks[t];
      known := true;
      if record.owner != Some(worker) { return; }
      record := record.(status := if record.attempts >= record.maxAttempts then Failed else Pending, owner := None);
      UpdateTask(r, t, record);
    }

    static method CancelOpen(before: map<TaskId, TaskRecord>, ids: seq<TaskId>) returns (tasks: map<TaskId, TaskRecord>)
      requires NoRepeats(ids) && forall t :: t in ids <==> t in before
      ensures tasks == map t | t in before :: CancelRecord(before[t])
    {
      tasks := before;
      for n := 0 to |ids|
        invariant tasks.Keys == before.Keys
        invariant forall m :: 0 <= m < n ==> tasks[ids[m]] == CancelRecord(before[ids[m]])
        invariant forall m :: n <= m < |ids| ==> tasks[ids[m]] == before[ids[m]]
      {
        if tasks[ids[n]].status == Pending || tasks[ids[n]].status == Running {
          tasks := tasks[ids[n] := tasks[ids[n]].(status := Cancelled)];
        }
      }
    }

    method CancelTasks(r: RunId)
      requires Valid() && r in runs
      modifies this`runs
      ensures Valid() && Becomes(old(runs), runs, r, StoreSpec.CancelTasks(old(runs[r])))
    {
      hide Sound, NoRepeats, StoreSpec.Valid;
      SoundValid(r, runs[r]);
      var tasks := CancelOpen(runs[r].tasks, runs[r].order);
      assert tasks == StoreSpec.CancelTasks(runs[r]).tasks;
      TasksSound(r, runs[r], runs[r].(tasks := tasks));
      runs := runs[r := runs[r].(tasks := tasks)];
    }

    // ---------- queueing ----------

    /** `self.runs[run_id].outbox[key] = envelope`: the payload is replaced, a new key is listed last. */
    method Enqueue(r: RunId, k: Key, p: Payload)
      requires Valid() && r in runs && k.Owner() == r && !k.SplitKey?
      modifies this`runs
      ensures Valid() && Becomes(old(runs), runs, r, Put(old(runs[r]), k, p))
    {
      hide Sound;
      var run := runs[r];
      PutSound(r, run, k, p);
      runs := runs[r := run.(outbox := run.outbox[k := p], queue := if k in run.outbox then run.queue else run.queue + [k])];
    }

    /** The message that `save_candidates` queues for the candidates it kept. */
    method QueueSaved(r: RunId, task: WorkerTask, kept: seq<Candidate>)
      requires Valid() && r in runs
      modifies this`runs
      ensures Valid() && Becomes(old(runs), runs, r, QueueCandidates(old(runs[r]), r, task.id, task.attempt, kept))
    {
      if |kept| > 0 { Enqueue(r, CandidatesKey(r, task.id, task.attempt), Candidates(kept)); }
    }

    method SaveEvent(r: RunId, event: RunEvent)
      requires Valid() && r in runs
      modifies this`runs
      ensures Valid() && Becomes(old(runs), runs, r, StoreSpec.SaveEvent(old(runs[r]), r, event))
    {
      Enqueue(r, EventKey(r, event.id), Events([event]));
    }

    method QueueTerminal(r: RunId, status: RunStatus, payload: Payload)
      requires Valid() && r in runs
      modifies this`runs
      ensures Valid() && Becomes(old(runs), runs, r, Put(old(runs[r]), TerminalKey(r, status), payload))
    {
      Enqueue(r, TerminalKey(r, status), payload);
    }

    // ---------- the outbox ----------

    method GetOutbox(r: RunId, now: nat, limit: nat) returns (keys: seq<Key>)
      requires Valid() && r in runs
      ensures keys == DueKeys(runs[r], runs[r].queue, now)[..Min(limit, |DueKeys(runs[r], runs[r].queue, now)|)]
    {
      var run, due := runs[r], [];
      for n := 0 to |run.queue|
        invariant due == DueKeys(run, run.queue[..n], now)
      {
        assert run.queue[..n + 1][..n] == run.queue[..n];
        var k := run.queue[n];
        assert k in run.queue;
        if k !in run.delivered && k !in run.dead && (k in run.availableAt ==> run.availableAt[k] <= now) {
          due := due + [k];
        }
      }
      assert run.queue[..|run.queue|] == run.queue;
      keys := due[..Min(limit, |due|)];
    }

    method HasPendingOutbox(r: RunId) returns (pending: bool)
      requires Valid() && r in runs
      ensures pending <==> !Drained(runs[r])
    {
      var run := runs[r];
      for n := 0 to |run.queue|
        invariant forall m :: 0 <= m < n ==> !Queued(run, run.queue[m])
      {
        assert run.queue[n] in run.queue;
        if run.queue[n] !in run.delivered && run.queue[n] !in run.dead {
          assert Queued(run, run.queue[n]);
          return true;
        }
      }
      assert forall k :: Queued(run, k) ==> k in run.queue;
      pending := false;
    }

    /** The inner loop over the messages of one run, with `room` places left. */
    static method ReplaysOfRun(r: RunId, run: MemoryRun, room: nat) returns (replays: seq<Replay>)
      requires StoreSpec.Valid(run) && room > 0
      ensures var all := ReplaysOf(r, run, run.queue); replays == all[..Min(room, |all|)]
    {
      replays := [];
      if run.worker.None? || run.token.None? { return; }
      for m := 0 to |run.queue|
        invariant replays == ReplaysOf(r, run, run.queue[..m]) && |replays| < room
      {
        assert run.queue[..m + 1][..m] == run.queue[..m];
        var k := run.queue[m];
        assert k in run.queue;
        if k in run.delivered || k in run.dead || !run.outbox[k].Terminal() { continue; }
        replays := replays + [Replay(r, run.worker.value, run.token.value, k)];
        if |replays| >= room {
          ReplaysOfPrefix(r, run, run.queue, m + 1);
          return;
        }
      }
      assert run.queue[..|run.queue|] == run.queue;
    }

    /** The first `limit` terminal messages that are queued, run by run; a limit of zero still yields one. */
    method PendingTerminalReplays(limit: nat) returns (replays: seq<Replay>)
      requires Valid()
      ensures var all := Replays(runs, order); replays == all[..Min(Max(limit, 1), |all|)]
    {
      hide Sound, NoRepeats, StoreSpec.Valid, ReplaysOf, Replays;
      replays := [];
      assert Replays(runs, order[..0]) == [] by { NoReplays(runs, order); }
      for n := 0 to |order|
        invariant replays == Replays(runs, order[..n]) && |replays| < Max(limit, 1)
      {
        NextReplays(runs, order, n);
        SoundValid(order[n], runs[order[n]]);
        var more := ReplaysOfRun(order[n], runs[order[n]], Max(limit, 1) - |replays|);
        replays := replays + more;
        if |replays| >= Max(limit, 1) {
          ReplaysPrefix(runs, order, n + 1);
          return;
        }
      }
      assert order[..|order|] == order;
    }

    static lemma {:induction false} ReplaysOfPrefix(r: RunId, run: MemoryRun, keys: seq<Key>, n: nat)
      requires n <= |keys|
      ensures ReplaysOf(r, run, keys[..n]) <= ReplaysOf(r, run, keys)
      decreases |keys|
    {
      if n == |keys| {
        assert keys[..n] == keys;
      } else {
        assert keys[..|keys| - 1][..n] == keys[..n];
        ReplaysOfPrefix(r, run, keys[..|keys| - 1], n);
      }
    }

    static lemma NoReplays(runs: map<RunId, MemoryRun>, order: seq<RunId>)
      ensures Replays(runs, order[..0]) == []
    {
    }

    static lemma NextReplays(runs: map<RunId, MemoryRun>, order: seq<RunId>, n: nat)
      requires n < |order| && forall r :: r in order ==> r in runs
      ensures order[n] in runs
      ensures Replays(runs, order[..n + 1]) == Replays(runs, order[..n]) + ReplaysOf(order[n], runs[order[n]], runs[order[n]].queue)
    {
      assert order[..n + 1][..n] == order[..n];
    }

    static lemma {:induction false} ReplaysPrefix(runs: map<RunId, MemoryRun>, order: seq<RunId>, n: nat)
      requires n <= |order| && forall r :: r in order ==> r in runs
      ensures Replays(runs, order[..n]) <= Replays(runs, order)
      decreases |order|
    {
      if n == |order| {
        assert order[..n] == order;
      } else {
        assert order[..|order| - 1][..n] == order[..n];
        ReplaysPrefix(runs, order[..|order| - 1], n);
      }
    }

    /** The run whose outbox holds the message; a key names its run, so there is at most one. */
    method Holder(k: Key) returns (r: Option<RunId>)
      requires Valid()
      ensures r == if k.Owner() in runs && k in runs[k.Owner()].outbox then Some(k.Owner()) else None
    {
      for n := 0 to |order|
        invariant forall m :: 0 <= m < n ==> k !in runs[order[m]].outbox
      {
        if k in runs[order[n]].outbox { return Some(order[n]); }
      }
      r := None;
    }

    ghost predicate HeldBy(k: Key)
      reads this
    {
      k.Owner() in runs && k in runs[k.Owner()].outbox
    }

    method MarkOutboxDelivered(k: Key)
      requires Valid()
      modifies this`runs
      ensures Valid()
      ensures if old(HeldBy(k)) then Becomes(old(runs), runs, k.Owner(), MarkDelivered(old(runs[k.Owner()]), k)) else runs == old(runs)
    {
      hide Sound, NoRepeats;
      var found := Holder(k);
      if found.None? { return; }
      var run := runs[found.value];
      MarksSound(found.value, run, run.(delivered := run.delivered + {k}), k);
      runs := runs[found.value := run.(delivered := run.delivered + {k})];
    }

    /** An id that the outbox does not hold is marked delivered as well; only then is the record no longer valid. */
    method FinalizeTerminalOutbox(r: RunId, k: Key, status: RunStatus)
      requires Valid() && r in runs
      modifies this`runs
      ensures Becomes(old(runs), runs, r, FinalizeTerminal(old(runs[r]), k, status))
      ensures k in old(runs[r]).outbox ==> Valid()
    {
      hide Sound, NoRepeats;
      if k in runs[r].outbox { MarksSound(r, runs[r], runs[r].(delivered := runs[r].delivered + {k}, status := status), k); }
      runs := runs[r := runs[r].(delivered := runs[r].delivered + {k}, status := status)];
    }

    method MarkOutboxFailed(k: Key, retryable: bool, now: nat) returns (dead: bool)
      requires Valid()
      modifies this`runs
      ensures Valid() && dead == (old(HeldBy(k)) && !retryable)
      ensures if old(HeldBy(k)) then Becomes(old(runs), runs, k.Owner(), MarkFailed(old(runs[k.Owner()]), k, retryable, now))
              else runs == old(runs)
    {
      hide Sound, Backoff;
      var found := Holder(k);
      if found.None? { return false; }
      var r, run := found.value, runs[found.value];
      var tries := (if k in run.tries then run.tries[k] else 0) + 1;
      run := run.(tries := run.tries[k := tries]);
      dead := !retryable;
      if dead {
        run := run.(dead := run.dead + {k});
      } else {
        run := run.(availableAt := run.availableAt[k := now + Backoff(tries)]);
      }
      MarksSound(r, runs[r], run, k);
      runs := runs[r := run];
    }

    method SplitCandidateOutbox(k: Key) returns (done: bool)
      requires Valid()
      modifies this`runs
      ensures Valid() && done == (old(HeldBy(k)) && CanSplit(old(runs[k.Owner()]), k))
      ensures if done then Becomes(old(runs), runs, k.Owner(), Split(old(runs[k.Owner()]), k)) else runs == old(runs)
    {
      hide Sound, Backoff;
      var found := Holder(k);
      if found.None? { return false; }
      var r, run := found.value, runs[found.value];
      if !run.outbox[k].Candidates? || k in run.delivered || |run.outbox[k].batch| < 2 { return false; }
      var batch := run.outbox[k].batch;
      var midpoint := |batch| / 2;
      for index := 0 to 2
        invariant run == if index == 0 then old(runs[r])
                         else if index == 1 then PutNew(old(runs[r]), SplitKey(k, 0), Candidates(batch[..midpoint]))
                         else PutNew(PutNew(old(runs[r]), SplitKey(k, 0), Candidates(batch[..midpoint])),
                                     SplitKey(k, 1), Candidates(batch[midpoint..]))
      {
        var part := if index == 0 then batch[..midpoint] else batch[midpoint..];
        if SplitKey(k, index) !in run.outbox {
          run := run.(outbox := run.outbox[SplitKey(k, index) := Candidates(part)], queue := run.queue + [SplitKey(k, index)]);
        }
      }
      run := run.(delivered := run.delivered + {k}, dead := run.dead - {k});
      SplitSound(r, runs[r], k);
      runs := runs[r := run];
      done := true;
    }

    method DiscardCandidateOutbox(k: Key) returns (done: bool)
      requires Valid()
      modifies this`runs
      ensures Valid() && done == (old(HeldBy(k)) && CanDiscard(old(runs[k.Owner()]), k))
      ensures if done then Becomes(old(runs), runs, k.Owner(), Discard(old(runs[k.Owner()]), k)) else runs == old(runs)
    {
      hide Sound, Backoff;
      var found := Holder(k);
      if found.None? { return false; }
      var r, run := found.value, runs[found.value];
      if !run.outbox[k].Candidates? || |run.outbox[k].batch| != 1 { return false; }
      MarksSound(r, run, run.(delivered := run.delivered + {k}, dead := run.dead - {k}, rejectedInvalid := run.rejectedInvalid + 1), k);
      runs := runs[r := run.(delivered := run.delivered + {k}, dead := run.dead - {k}, rejectedInvalid := run.rejectedInvalid + 1)];
      done := true;
    }

    method RecordCandidateAck(r: RunId, k: Key, ack: Ack)
      requires Valid() && r in runs
      modifies this`runs
      ensures Becomes(old(runs), runs, r, RecordAck(old(runs[r]), k, ack))
      ensures k in old(runs[r]).outbox ==> Valid()
    {
      hide Sound, NoRepeats;
      var run := runs[r];
      if k in run.delivered { return; }
      if k in run.outbox { MarksSound(r, run, RecordAck(run, k, ack), k); }
      var total := if ack.found.Some? then ack.found.value else run.baseline + ack.accepted;
      runs := runs[r := run.(baseline := Max(run.baseline, total), crmAccepted := run.crmAccepted + ack.accepted,
                             rejectedLimit := run.rejectedLimit + ack.rejectedLimit, delivered := run.delivered + {k})];
    }

    method SetRunStatus(r: RunId, status: RunStatus)
      requires Valid() && r in runs
      modifies this`runs
      ensures Valid() && Becomes(old(runs), runs, r, old(runs[r]).(status := status))
    {
      hide Sound, NoRepeats;
      TasksSound(r, runs[r], runs[r].(status := status));
      runs := runs[r := runs[r].(status := status)];
    }

    // ---------- the summary ----------

    static function Having(run: MemoryRun, ids: seq<TaskId>, status: TaskStatus): set<TaskId> {
      set t | t in ids && t in run.tasks && run.tasks[t].status == status
    }

    static lemma CountNext(run: MemoryRun, ids: seq<TaskId>, t: TaskId, status: TaskStatus)
      requires t !in ids && t in run.tasks
      ensures |Having(run, ids + [t], status)| == |Having(run, ids, status)| + if run.tasks[t].status == status then 1 else 0
    {
      assert Having(run, ids + [t], status) == Having(run, ids, status) + if run.tasks[t].status == status then {t} else {};
    }

    static lemma CountStarts(run: MemoryRun)
      ensures forall status :: Having(run, run.order[..0], status) == {}
    {
    }

    static lemma CountEnds(run: MemoryRun, status: TaskStatus)
      requires forall t :: t in run.order <==> t in run.tasks
      ensures |Having(run, run.order[..|run.order|], status)| == Count(run, status)
    {
      assert InStatus(run, status) == Having(run, run.order[..|run.order|], status);
    }

    static method CountTasks(run: MemoryRun) returns (counts: map<TaskStatus, nat>)
      requires NoRepeats(run.order) && forall t :: t in run.order <==> t in run.tasks
      ensures forall status :: status in counts && counts[status] == Count(run, status)
    {
      hide Having, Count;
      counts := map[Pending := 0, Running := 0, Completed := 0, Failed := 0, Cancelled := 0];
      CountStarts(run);
      forall status ensures status in counts && counts[status] == 0 {
        match status { case Pending => case Running => case Completed => case Failed => case Cancelled => }
      }
      for n := 0 to |run.order|
        invariant forall status :: status in counts && counts[status] == |Having(run, run.order[..n], status)|
      {
        var t := run.order[n];
        assert run.order[..n + 1] == run.order[..n] + [t] && t !in run.order[..n];
        forall status { CountNext(run, run.order[..n], t, status); }
        counts := counts[run.tasks[t].status := counts[run.tasks[t].status] + 1];
      }
      forall status { CountEnds(run, status); }
    }

    static method CountLimited(run: MemoryRun) returns (limited: nat)
      requires forall k :: k in run.queue ==> k in run.outbox
      ensures limited == LimitedMessages(run, run.queue)
    {
      limited := 0;
      for n := 0 to |run.queue|
        invariant limited == LimitedMessages(run, run.queue[..n])
      {
        assert run.queue[..n + 1][..n] == run.queue[..n];
        var p := run.outbox[run.queue[n]];
        if p.Events? {
          ghost var before := limited;
          for m := 0 to |p.events|
            invariant limited == before + LimitedEvents(p.events[..m])
          {
            assert p.events[..m + 1][..m] == p.events[..m];
            if p.events[m].budgetLimited { limited := limited + 1; }
          }
          assert p.events[..|p.events|] == p.events;
        }
      }
      assert run.queue[..|run.queue|] == run.queue;
    }

    method Summarise(r: RunId) returns (summary: RunSummary)
      requires Valid() && r in runs
      ensures summary == Summary(runs[r])
    {
      SoundValid(r, runs[r]);
      hide Sound;
      var run := runs[r];
      var counts := CountTasks(run);
      var limited := CountLimited(run);
      summary := RunSummary(counts[Pending], counts[Running], counts[Completed], counts[Failed], counts[Cancelled],
                            run.baseline, |run.dead|, run.crmAccepted, run.rejectedLimit, run.rejectedInvalid, limited);
    }
  }
}
