/** Laws of one run on the CRM side: fencing, idempotency, the candidate cap and terminal reports. */
module CrmLaws {
  import opened Contracts
  import opened CrmSpec

  /** What every later state of a run keeps of an earlier one; foreign keys may change. */
  ghost predicate Grows(r: RunId, a: Crm, b: Crm) {
    && a.run.maxCandidates == b.run.maxCandidates
    && (forall k :: k in a.idem && k.Owner() == r ==> k in b.idem && b.idem[k] == a.idem[k])
    && (forall k :: k in a.results && k.Owner() == r && k in a.idem ==> k in b.results && b.results[k] == a.results[k])
    && |a.run.tasks| == |b.run.tasks|
    && (forall j :: 0 <= j < |a.run.tasks| ==>
          b.run.tasks[j].id == a.run.tasks[j].id && a.run.tasks[j].attempts <= b.run.tasks[j].attempts
          && b.run.tasks[j].maxAttempts == a.run.tasks[j].maxAttempts)
    && |a.run.candidates| <= |b.run.candidates|
  }

  // ---------- candidates ----------

  /** The acknowledged ids are exactly the new ones, none is lost, and the cap is respected. */
  ghost predicate Counted(held: map<CandidateKey, Candidate>, u: Upserted, cap: nat) {
    && |u.held| == |held| + |u.ids| && |u.held| <= Max(cap, |held|)
    && (forall k :: k in held ==> k in u.held)
    && (forall k :: k in u.held <==> k in held || k in u.ids)
    && (forall i :: 0 <= i < |u.ids| ==> u.ids[i] !in held)
  }

  lemma UpsertOneCounts(held: map<CandidateKey, Candidate>, u: Upserted, c: Candidate, cap: nat)
    requires Counted(held, u, cap)
    ensures Counted(held, UpsertOne(u, c, cap), cap)
  {
    var v := UpsertOne(u, c, cap);
    var k := KeyOf(c);
    if k in u.held {
      assert v.held.Keys == u.held.Keys;
      assert |v.held| == |v.held.Keys| && |u.held| == |u.held.Keys|;
    } else if |u.held| < cap {
      assert v.held.Keys == u.held.Keys + {k};
      assert |v.held| == |v.held.Keys| && |u.held| == |u.held.Keys|;
    }
  }

  lemma {:induction false} UpsertCounts(held: map<CandidateKey, Candidate>, batch: seq<Candidate>, cap: nat)
    ensures Counted(held, UpsertAll(held, batch, cap), cap)
  {
    if |batch| > 0 {
      UpsertCounts(held, batch[..|batch| - 1], cap);
      UpsertOneCounts(held, UpsertAll(held, batch[..|batch| - 1], cap), batch[|batch| - 1], cap);
    }
  }

  // ---------- what a call can change ----------

  /** A first acceptance happens under the current, unexpired lease; any other call leaves the state alone. */
  lemma SubmitCases(crm: Crm, token: Token, now: nat, key: Key, payload: Payload)
    ensures var (after, answer) := Submit(crm, token, now, key, payload);
      && (after == crm || (key !in crm.idem && ValidLease(crm.run, token, now)
                           && after.idem == crm.idem[key := payload] && (answer == Done || answer.Acked?)))
      && (answer == Done || answer.Acked? ==> key in after.idem && after.idem[key] == payload)
      && answer != Rejected && (answer == Done ==> !payload.Candidates?)
      && (answer.Acked? ==> payload.Candidates? && key in after.results && after.results[key] == answer.ack)
      && (key in crm.idem ==> after == crm)
      && after.run.status == (if payload.Terminal() && after != crm then after.run.status else crm.run.status)
      && (!payload.Terminal() || after == crm ==> after.run.lease == crm.run.lease)
  {
  }

  lemma AppendGrows(r: RunId, crm: Crm, token: Token, now: nat, events: seq<RunEvent>, key: Key)
    ensures Grows(r, crm, AppendEvents(crm, token, now, events, key).0)
    ensures AppendEvents(crm, token, now, events, key).0.run.candidates == crm.run.candidates
  {
  }

  lemma UpsertGrows(r: RunId, crm: Crm, token: Token, now: nat, batch: seq<Candidate>, key: Key)
    ensures Grows(r, crm, UpsertCandidates(crm, token, now, batch, key).0)
    ensures |UpsertCandidates(crm, token, now, batch, key).0.run.candidates| <= Max(crm.run.maxCandidates, |crm.run.candidates|)
  {
    UpsertCounts(crm.run.candidates, batch, crm.run.maxCandidates);
  }

  lemma TerminateGrows(r: RunId, crm: Crm, token: Token, now: nat, payload: Payload, key: Key)
    requires payload.Terminal()
    ensures Grows(r, crm, Terminate(crm, token, now, payload, key).0)
    ensures Terminate(crm, token, now, payload, key).0.run.candidates == crm.run.candidates
  {
  }

  lemma SubmitGrows(r: RunId, crm: Crm, token: Token, now: nat, key: Key, payload: Payload)
    ensures Grows(r, crm, Submit(crm, token, now, key, payload).0)
    ensures |Submit(crm, token, now, key, payload).0.run.candidates| <= Max(crm.run.maxCandidates, |crm.run.candidates|)
  {
    match payload
    case Events(events) => AppendGrows(r, crm, token, now, events, key);
    case Candidates(batch) => UpsertGrows(r, crm, token, now, batch, key);
    case Complete(_) => TerminateGrows(r, crm, token, now, payload, key);
    case Fail(_) => TerminateGrows(r, crm, token, now, payload, key);
  }

  // ---------- events ----------

  /** With distinct ids an event changes exactly the task it names. */
  lemma ApplyEventExact(tasks: seq<ClaimedTask>, e: RunEvent)
    requires DistinctIds(tasks)
    ensures ApplyEvents(tasks, [e]) == ApplyEvent(tasks, e)
    ensures forall j :: 0 <= j < |tasks| ==>
              ApplyEvent(tasks, e)[j] == if e.task == Some(tasks[j].id) then Progress(tasks[j], e) else tasks[j]
  {
    assert [e][..0] == [];
    assert ApplyEvents(tasks, []) == tasks;
    if i :| 0 <= i < |tasks| && e.task == Some(tasks[i].id) {
      AppliedAt(tasks, e, i);
    } else {
      AppliedNowhere(tasks, e);
    }
  }

  /** The value is the greatest of the start and what the events about the task report. */
  ghost predicate IsGreatest(value: nat, start: nat, events: seq<RunEvent>, t: TaskId, metric: RunEvent -> Option<nat>) {
    && start <= value && (forall i :: 0 <= i < |events| && events[i].task == Some(t) && metric(events[i]).Some? ==> metric(events[i]).value <= value)
    && (value == start || exists i :: 0 <= i < |events| && events[i].task == Some(t) && metric(events[i]) == Some(value))
  }

  /** The status is the last one that an event about the task gives, or the one at the start. */
  ghost predicate IsLatest(status: TaskStatus, start: TaskStatus, events: seq<RunEvent>, t: TaskId) {
    if |events| == 0 then status == start
    else
      var e := events[|events| - 1];
      if e.task == Some(t) && e.status.Some? then status == e.status.value else IsLatest(status, start, events[..|events| - 1], t)
  }

  lemma GreatestNext(value: nat, start: nat, events: seq<RunEvent>, e: RunEvent, t: TaskId, metric: RunEvent -> Option<nat>)
    requires IsGreatest(value, start, events, t, metric)
    ensures IsGreatest(if e.task == Some(t) && metric(e).Some? then Max(value, metric(e).value) else value, start, events + [e], t, metric)
  {
    var more := events + [e];
    assert more[|events|] == e;
    if i :| 0 <= i < |events| && events[i].task == Some(t) && metric(events[i]) == Some(value) { assert more[i] == events[i]; }
    forall i | 0 <= i < |more| && more[i].task == Some(t) && metric(more[i]).Some?
      ensures metric(more[i]).value <= if e.task == Some(t) && metric(e).Some? then Max(value, metric(e).value) else value
    {
      if i < |events| { assert more[i] == events[i]; }
    }
  }

  function AttemptIn(e: RunEvent): Option<nat> { e.attempt }

  /** What the worker kept counts before what it found. */
  function FoundIn(e: RunEvent): Option<nat> { if e.accepted.Some? then e.accepted else e.found }

  function DiscardedIn(e: RunEvent): Option<nat> { e.discarded }

  /** After any events, in whatever order they arrive: the status of a task is the last that was reported, and each of its
      counters the greatest. Nothing else of it changes. */
  lemma {:induction false} TaskAfterEvents(tasks: seq<ClaimedTask>, events: seq<RunEvent>, j: nat)
    requires DistinctIds(tasks) && j < |tasks|
    ensures var t, r := tasks[j], ApplyEvents(tasks, events)[j];
      && r == t.(status := r.status, attempts := r.attempts, found := r.found, discarded := r.discarded)
      && IsLatest(r.status, t.status, events, t.id) && IsGreatest(r.attempts, t.attempts, events, t.id, AttemptIn)
      && IsGreatest(r.found, t.found, events, t.id, FoundIn) && IsGreatest(r.discarded, t.discarded, events, t.id, DiscardedIn)
  {
    hide IsGreatest, ApplyEvent;
    var t := tasks[j];
    if |events| == 0 {
      NoEvents(t);
    } else {
      var most, e := events[..|events| - 1], events[|events| - 1];
      TaskAfterEvents(tasks, most, j);
      var before := ApplyEvents(tasks, most);
      ApplyEventExact(before, e);
      GreatestNext(before[j].attempts, t.attempts, most, e, t.id, AttemptIn);
      GreatestNext(before[j].found, t.found, most, e, t.id, FoundIn);
      GreatestNext(before[j].discarded, t.discarded, most, e, t.id, DiscardedIn);
      assert events == most + [e];
    }
  }

  lemma NoEvents(t: ClaimedTask)
    ensures IsGreatest(t.attempts, t.attempts, [], t.id, AttemptIn) && IsGreatest(t.found, t.found, [], t.id, FoundIn)
    ensures IsGreatest(t.discarded, t.discarded, [], t.id, DiscardedIn)
  {
  }

  /** A first delivery of events under a valid lease is kept in full: the events are appended, and each task is as after all
      of them. A second delivery changes nothing and is answered alike, or as a conflict if it differs. */
  lemma FirstDeliveryApplies(crm: Crm, token: Token, now: nat, events: seq<RunEvent>, key: Key, j: nat)
    requires ValidLease(crm.run, token, now) && key !in crm.idem && DistinctIds(crm.run.tasks) && j < |crm.run.tasks|
    ensures var (after, answer) := AppendEvents(crm, token, now, events, key);
      && answer == Done && after.idem == crm.idem[key := Events(events)] && after.results == crm.results
      && after.run == crm.run.(events := crm.run.events + events, tasks := after.run.tasks) && |after.run.tasks| == |crm.run.tasks|
      && var t, r := crm.run.tasks[j], after.run.tasks[j];
         && IsLatest(r.status, t.status, events, t.id) && IsGreatest(r.attempts, t.attempts, events, t.id, AttemptIn)
         && IsGreatest(r.found, t.found, events, t.id, FoundIn) && IsGreatest(r.discarded, t.discarded, events, t.id, DiscardedIn)
    ensures var after := AppendEvents(crm, token, now, events, key).0;
      forall again :: AppendEvents(after, token, now, again, key) == (after, if again == events then Done else Conflict)
  {
    hide ApplyEvents, IsGreatest;
    TaskAfterEvents(crm.run.tasks, events, j);
  }
}
