/** What each operation of the development CRM (app/crm/fake.py) does to one run, as functions.

    A `Crm` is one run together with the idempotency tables, which all runs share. */
module CrmSpec {
  import opened Contracts

  datatype Lease = Lease(token: Token, expires: nat)

  datatype FakeRun = FakeRun(
    maxCandidates: nat, tasks: seq<ClaimedTask>, status: RunStatus, lease: Option<Lease>,
    cancelRequested: bool, events: seq<RunEvent>, candidates: map<CandidateKey, Candidate>,
    report: Option<Report>, error: Option<nat>)

  datatype Crm = Crm(run: FakeRun, idem: map<Key, Payload>, results: map<Key, Ack>)

  function NewRun(maxCandidates: nat, tasks: seq<ClaimedTask>): FakeRun {
    FakeRun(maxCandidates, tasks, RunPending, None, false, [], map[], None, None)
  }

  // ---------- leases ----------

  predicate Holds(run: FakeRun, token: Token) {
    run.lease.Some? && run.lease.value.token == token
  }

  predicate ValidLease(run: FakeRun, token: Token, now: nat) {
    Holds(run, token) && now < run.lease.value.expires
  }

  predicate Claimable(run: FakeRun, now: nat) {
    || run.status == RunPending
    || (run.status == RunRunning && run.lease.Some? && run.lease.value.expires <= now)
  }

  function Granted(run: FakeRun, now: nat, seconds: nat, token: Token): FakeRun {
    run.(status := RunRunning, lease := Some(Lease(token, now + seconds)))
  }

  function ClaimOf(run: FakeRun, now: nat, seconds: nat, token: Token): Claim {
    Claim(token, now + seconds, |run.candidates|, run.tasks)
  }

  function Beat(run: FakeRun, token: Token, now: nat, seconds: nat): FakeRun {
    if ValidLease(run, token, now) then run.(lease := Some(Lease(token, now + seconds))) else run
  }

  predicate CancelSeen(run: FakeRun, token: Token) {
    !Holds(run, token) || run.cancelRequested
  }

  // ---------- cancellation ----------

  function CancelTask(t: ClaimedTask): ClaimedTask {
    if t.status.Open() then t.(status := Cancelled) else t
  }

  function CancelRun(run: FakeRun): FakeRun {
    run.(cancelRequested := true, status := RunCancelRequested,
         tasks := seq(|run.tasks|, i requires 0 <= i < |run.tasks| => CancelTask(run.tasks[i])))
  }

  // ---------- events ----------

  function Progress(t: ClaimedTask, e: RunEvent): ClaimedTask {
    t.(status := OrElse(e.status, t.status),
       attempts := Max(t.attempts, OrElse(e.attempt, t.attempts)),
       found := Max(t.found, if e.accepted.Some? then e.accepted.value else OrElse(e.found, 0)),
       discarded := Max(t.discarded, OrElse(e.discarded, t.discarded)))
  }

  /** The event changes the first task that carries its id. */
  function ApplyEvent(tasks: seq<ClaimedTask>, e: RunEvent): (r: seq<ClaimedTask>)
    ensures |r| == |tasks|
    ensures forall i :: 0 <= i < |tasks| ==> r[i].id == tasks[i].id && r[i].maxAttempts == tasks[i].maxAttempts
    ensures forall i :: 0 <= i < |tasks| ==> tasks[i].attempts <= r[i].attempts
  {
    if e.task.None? || |tasks| == 0 then tasks
    else if tasks[0].id == e.task.value then [Progress(tasks[0], e)] + tasks[1..]
    else [tasks[0]] + ApplyEvent(tasks[1..], e)
  }

  lemma {:induction false} AppliedAt(tasks: seq<ClaimedTask>, e: RunEvent, i: nat)
    requires i < |tasks| && e.task == Some(tasks[i].id)
    requires forall j :: 0 <= j < i ==> tasks[j].id != tasks[i].id
    ensures ApplyEvent(tasks, e) == tasks[i := Progress(tasks[i], e)]
  {
    if i > 0 { AppliedAt(tasks[1..], e, i - 1); }
  }

  lemma {:induction false} AppliedNowhere(tasks: seq<ClaimedTask>, e: RunEvent)
    requires forall j :: 0 <= j < |tasks| ==> e.task != Some(tasks[j].id)
    ensures ApplyEvent(tasks, e) == tasks
  {
    if |tasks| > 0 && e.task.Some? { AppliedNowhere(tasks[1..], e); }
  }

  function ApplyEvents(tasks: seq<ClaimedTask>, events: seq<RunEvent>): (r: seq<ClaimedTask>)
    ensures |r| == |tasks|
    ensures forall i :: 0 <= i < |tasks| ==> r[i].id == tasks[i].id && r[i].maxAttempts == tasks[i].maxAttempts
    ensures forall i :: 0 <= i < |tasks| ==> tasks[i].attempts <= r[i].attempts
  {
    if |events| == 0 then tasks
    else ApplyEvent(ApplyEvents(tasks, events[..|events| - 1]), events[|events| - 1])
  }

  function AppendEvents(crm: Crm, token: Token, now: nat, events: seq<RunEvent>, key: Key): (Crm, Response) {
    if !ValidLease(crm.run, token, now) then (crm, LeaseLost)
    else if key in crm.idem then (crm, if crm.idem[key] == Events(events) then Done else Conflict)
    else (crm.(idem := crm.idem[key := Events(events)],
               run := crm.run.(events := crm.run.events + events, tasks := ApplyEvents(crm.run.tasks, events))),
          Done)
  }

  // ---------- candidates ----------

  datatype Upserted = Upserted(held: map<CandidateKey, Candidate>, ids: seq<CandidateKey>, rejected: nat)

  function UpsertOne(u: Upserted, c: Candidate, cap: nat): Upserted {
    if KeyOf(c) in u.held then u.(held := u.held[KeyOf(c) := c])
    else if |u.held| >= cap then u.(rejected := u.rejected + 1)
    else u.(held := u.held[KeyOf(c) := c], ids := u.ids + [KeyOf(c)])
  }

  function UpsertAll(held: map<CandidateKey, Candidate>, batch: seq<Candidate>, cap: nat): Upserted {
    if |batch| == 0 then Upserted(held, [], 0)
    else UpsertOne(UpsertAll(held, batch[..|batch| - 1], cap), batch[|batch| - 1], cap)
  }

  function AckOf(u: Upserted): Ack { Ack(|u.ids|, u.rejected, Some(|u.held|), u.ids) }

  function UpsertCandidates(crm: Crm, token: Token, now: nat, batch: seq<Candidate>, key: Key): (Crm, Response) {
    if !ValidLease(crm.run, token, now) then (crm, LeaseLost)
    else if key in crm.idem then
      (crm, if crm.idem[key] != Candidates(batch) then Conflict
            else if key in crm.results then Acked(crm.results[key]) else Missing)
    else
      var u := UpsertAll(crm.run.candidates, batch, crm.run.maxCandidates);
      (Crm(crm.run.(candidates := u.held), crm.idem[key := Candidates(batch)], crm.results[key := AckOf(u)]),
       Acked(AckOf(u)))
  }

  // ---------- terminal reports ----------

  function Ended(run: FakeRun, payload: Payload): FakeRun
    requires payload.Terminal()
  {
    if payload.Complete?
    then run.(status := payload.report.status, report := Some(payload.report), lease := None)
    else run.(status := RunFailed, error := Some(payload.error), lease := None)
  }

  /** `complete_run` and `fail_run`: a key that is already known needs no lease. */
  function Terminate(crm: Crm, token: Token, now: nat, payload: Payload, key: Key): (Crm, Response)
    requires payload.Terminal()
  {
    if key in crm.idem then (crm, if crm.idem[key] == payload then Done else Conflict)
    else if !ValidLease(crm.run, token, now) then (crm, LeaseLost)
    else (crm.(idem := crm.idem[key := payload], run := Ended(crm.run, payload)), Done)
  }

  function Submit(crm: Crm, token: Token, now: nat, key: Key, payload: Payload): (Crm, Response) {
    match payload
    case Events(events) => AppendEvents(crm, token, now, events, key)
    case Candidates(batch) => UpsertCandidates(crm, token, now, batch, key)
    case Complete(_) => Terminate(crm, token, now, payload, key)
    case Fail(_) => Terminate(crm, token, now, payload, key)
  }
}
