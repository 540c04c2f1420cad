/** `FakeCRMPort` (app/crm/fake.py): the runs and the idempotency tables, changed in place.

    Each method is proved equal to the function of `CrmSpec` of the same name; every other run is untouched.
    The clock reading and the fresh lease token are parameters. */
module FakeCrmPort {
  import opened Contracts
  import opened CrmSpec

  class FakeCrm {
    var order: seq<RunId>  // the runs in the order they were enqueued
    var runs: map<RunId, FakeRun>
    var idempotency: map<Key, Payload>
    var results: map<Key, Ack>

    ghost predicate Valid()
      reads this
    {
      && (forall r :: r in order <==> r in runs)
      && (forall k :: k in idempotency && idempotency[k].Candidates? ==> k in results)
    }

    function View(r: RunId): Crm
      requires r in runs
      reads this
    {
      Crm(runs[r], idempotency, results)
    }

    constructor ()
      ensures Valid() && runs == map[] && order == [] && idempotency == map[] && results == map[]
    {
      order, runs, idempotency, results := [], map[], map[], map[];
    }

    method Enqueue(r: RunId, maxCandidates: nat, tasks: seq<ClaimedTask>)
      requires Valid()
      modifies this
      ensures Valid() && idempotency == old(idempotency) && results == old(results)
      ensures runs == if r in old(runs) then old(runs) else old(runs)[r := NewRun(maxCandidates, tasks)]
      ensures order == if r in old(runs) then old(order) else old(order) + [r]
      ensures r !in old(runs) ==>
                && runs[r].status == RunPending && runs[r].lease == None && !runs[r].cancelRequested && runs[r].events == []
                && runs[r].candidates == map[] && runs[r].report == None && runs[r].error == None
                && runs[r].maxCandidates == maxCandidates && runs[r].tasks == tasks
    {
      if r !in runs {
        order, runs := order + [r], runs[r := NewRun(maxCandidates, tasks)];
      }
    }

    method RequestCancel(r: RunId)
      requires Valid() && r in runs
      modifies this`runs
      ensures Valid() && runs == old(runs)[r := CancelRun(old(runs[r]))]
      ensures runs[r].cancelRequested && runs[r].status == RunCancelRequested && |runs[r].tasks| == |old(runs[r].tasks)|
      ensures forall i :: 0 <= i < |runs[r].tasks| ==>
                var t := old(runs[r].tasks)[i]; runs[r].tasks[i] == if t.status == Pending || t.status == Running then t.(status := Cancelled) else t
    {
      var tasks := [];
      for i := 0 to |runs[r].tasks|
        invariant |tasks| == i && forall j :: 0 <= j < i ==> tasks[j] == CancelTask(runs[r].tasks[j])
      {
        tasks := tasks + [CancelTask(runs[r].tasks[i])];
      }
      assert tasks == CancelRun(runs[r]).tasks;
      runs := runs[r := runs[r].(cancelRequested := true, status := RunCancelRequested, tasks := tasks)];
    }

    /** The first run in order that is claimable, and no other, is leased. */
    method ClaimRun(now: nat, seconds: nat, token: Token) returns (claimed: Option<(RunId, Claim)>)
      requires Valid()
      modifies this`runs
      ensures Valid()
      ensures claimed.None? ==> runs == old(runs) && forall r :: r in runs ==>
                runs[r].status != RunPending
                && (runs[r].status == RunRunning && runs[r].lease.Some? ==> ValidLease(runs[r], runs[r].lease.value.token, now))
      ensures claimed.Some? ==>
        var (r, claim) := claimed.value;
        && r in old(runs) && (old(runs[r]).status == RunPending || old(runs[r]).status == RunRunning)
        && (old(runs[r]).status == RunRunning ==> forall holder :: !ValidLease(old(runs[r]), holder, now))
        && (forall t: nat :: ValidLease(runs[r], token, t) <==> t < now + seconds)
        && runs == old(runs)[r := Granted(old(runs[r]), now, seconds, token)]
        && claim == ClaimOf(old(runs[r]), now, seconds, token)
        && (exists n :: 0 <= n < |order| && order[n] == r
              && forall m :: 0 <= m < n ==> !Claimable(old(runs)[order[m]], now))
    {
      for n := 0 to |order|
        invariant forall m :: 0 <= m < n ==> !Claimable(runs[order[m]], now)
        invariant runs == old(runs)
      {
        var r := order[n];
        assert r in order;
        if Claimable(runs[r], now) {
          claimed := Some((r, ClaimOf(runs[r], now, seconds, token)));
          runs := runs[r := Granted(runs[r], now, seconds, token)];
          return;
        }
      }
      claimed := None;
    }

    method Heartbeat(r: RunId, token: Token, now: nat, seconds: nat) returns (valid: bool, cancelRequested: bool)
      requires Valid()
      modifies this`runs
      ensures Valid()
      ensures valid <==> r in old(runs) && ValidLease(old(runs[r]), token, now)
      ensures cancelRequested <==> valid && old(runs[r].cancelRequested)
      ensures runs == if r in old(runs) then old(runs)[r := Beat(old(runs[r]), token, now, seconds)] else old(runs)
      ensures valid ==> runs[r] == old(runs[r]).(lease := Some(Lease(token, now + seconds)))
      ensures !valid ==> runs == old(runs)
    {
      valid, cancelRequested := false, false;
      if r in runs && ValidLease(runs[r], token, now) {
        valid, cancelRequested := true, runs[r].cancelRequested;
        runs := runs[r := runs[r].(lease := Some(Lease(token, now + seconds)))];
      }
    }

    method IsCancelRequested(r: RunId, token: Token) returns (seen: bool)
      requires Valid() && r in runs
      ensures seen <==> CancelSeen(runs[r], token)
      ensures !seen <==> runs[r].lease.Some? && runs[r].lease.value.token == token && !runs[r].cancelRequested
    {
      seen := !Holds(runs[r], token) || runs[r].cancelRequested;
    }

    ghost predicate Became(r: RunId, crm: Crm, before: map<RunId, FakeRun>)
      reads this
    {
      r in before && runs == before[r := crm.run] && idempotency == crm.idem && results == crm.results
    }

    method AppendEvents(r: RunId, token: Token, now: nat, events: seq<RunEvent>, key: Key) returns (answer: Response)
      requires Valid() && r in runs
      modifies this`runs, this`idempotency
      ensures Valid() && answer == CrmSpec.AppendEvents(old(View(r)), token, now, events, key).1
      ensures Became(r, CrmSpec.AppendEvents(old(View(r)), token, now, events, key).0, old(runs))
    {
      if !ValidLease(runs[r], token, now) { return LeaseLost; }
      if key in idempotency {
        return if idempotency[key] == Events(events) then Done else Conflict;
      }
      hide ApplyEvents;
      var run := runs[r];
      idempotency := idempotency[key := Events(events)];
      run := run.(events := run.events + events);
      var tasks := ApplyAll(run.tasks, events);
      runs := runs[r := run.(tasks := tasks)];
      answer := Done;
    }

    /** The loop over the events. */
    static method ApplyAll(before: seq<ClaimedTask>, events: seq<RunEvent>) returns (tasks: seq<ClaimedTask>)
      ensures tasks == ApplyEvents(before, events)
    {
      tasks := before;
      for n := 0 to |events|
        invariant tasks == ApplyEvents(before, events[..n])
      {
        assert events[..n + 1][..n] == events[..n];
        tasks := ApplyToFirst(tasks, events[n]);
      }
      assert events[..|events|] == events;
    }

    static method ApplyToFirst(tasks: seq<ClaimedTask>, e: RunEvent) returns (changed: seq<ClaimedTask>)
      ensures changed == ApplyEvent(tasks, e)
    {
      if e.task.None? { return tasks; }
      for i := 0 to |tasks|
        invariant forall j :: 0 <= j < i ==> tasks[j].id != e.task.value
      {
        if tasks[i].id == e.task.value {
          AppliedAt(tasks, e, i);
          return tasks[i := Progress(tasks[i], e)];
        }
      }
      AppliedNowhere(tasks, e);
      changed := tasks;
    }

    method UpsertCandidates(r: RunId, token: Token, now: nat, batch: seq<Candidate>, key: Key) returns (answer: Response)
      requires Valid() && r in runs
      modifies this`runs, this`idempotency, this`results
      ensures Valid() && answer == CrmSpec.UpsertCandidates(old(View(r)), token, now, batch, key).1
      ensures Became(r, CrmSpec.UpsertCandidates(old(View(r)), token, now, batch, key).0, old(runs))
    {
      if !ValidLease(runs[r], token, now) { return LeaseLost; }
      if key in idempotency {
        return if idempotency[key] == Candidates(batch) then Acked(results[key]) else Conflict;
      }
      var held, ids, rejected := runs[r].candidates, [], 0;
      for n := 0 to |batch|
        invariant Upserted(held, ids, rejected) == UpsertAll(runs[r].candidates, batch[..n], runs[r].maxCandidates)
      {
        assert batch[..n + 1][..n] == batch[..n];
        var c := batch[n];
        if KeyOf(c) in held {
          held := held[KeyOf(c) := c];
        } else if |held| >= runs[r].maxCandidates {
          rejected := rejected + 1;
        } else {
          held, ids := held[KeyOf(c) := c], ids + [KeyOf(c)];
        }
      }
      assert batch[..|batch|] == batch;
      idempotency := idempotency[key := Candidates(batch)];
      results := results[key := Ack(|ids|, rejected, Some(|held|), ids)];
      runs := runs[r := runs[r].(candidates := held)];
      answer := Acked(results[key]);
    }

    method CompleteRun(r: RunId, token: Token, now: nat, report: Report, key: Key) returns (answer: Response)
      requires Valid() && r in runs
      modifies this`runs, this`idempotency
      ensures Valid() && answer == Terminate(old(View(r)), token, now, Complete(report), key).1
      ensures Became(r, Terminate(old(View(r)), token, now, Complete(report), key).0, old(runs))
      ensures key !in old(idempotency) && answer == Done ==>
                runs[r] == old(runs[r]).(status := report.status, report := Some(report), lease := None)
    {
      if key in idempotency {
        return if idempotency[key] == Complete(report) then Done else Conflict;
      }
      if !ValidLease(runs[r], token, now) { return LeaseLost; }
      idempotency := idempotency[key := Complete(report)];
      runs := runs[r := runs[r].(status := report.status, report := Some(report), lease := None)];
      answer := Done;
    }

    method FailRun(r: RunId, token: Token, now: nat, error: nat, key: Key) returns (answer: Response)
      requires Valid() && r in runs
      modifies this`runs, this`idempotency
      ensures Valid() && answer == Terminate(old(View(r)), token, now, Fail(error), key).1
      ensures Became(r, Terminate(old(View(r)), token, now, Fail(error), key).0, old(runs))
      ensures key !in old(idempotency) && answer == Done ==>
                runs[r] == old(runs[r]).(status := RunFailed, error := Some(error), lease := None)
    {
      if key in idempotency {
        return if idempotency[key] == Fail(error) then Done else Conflict;
      }
      if !ValidLease(runs[r], token, now) { return LeaseLost; }
      idempotency := idempotency[key := Fail(error)];
      runs := runs[r := runs[r].(status := RunFailed, error := Some(error), lease := None)];
      answer := Done;
    }
  }
}
