/** The loops of `ProspectingWorker` (app/prospecting/worker.py), run against the store and the CRM. */
module Worker {
  import opened Contracts
  import opened CrmSpec
  import opened CrmLaws
  import opened StoreSpec
  import opened StoreLaws
  import opened Delivery
  import opened DeliveryLaws
  import opened Isolation
  import opened TaskLoop
  import opened WorkerSteps
  import opened Reports
  import MemoryStore
  import FakeCrmPort
  import P = Protocol
  import Counts = ProtocolCounts

  /** How the search for a task ends: told to stop, an exception, or what was kept of what it found; `limited` counts
      the qualified candidates beyond the task's limit. */
  datatype SearchOutcome =
    | Stopped
    | Raised
    | Found(kept: seq<Candidate>, found: nat, discarded: nat, limited: nat, budgetLimited: bool)

  datatype TaskEnd = Executed | LostLease | SawCancel | Died

  /** The ways on from the top of the loop. */
  datatype Choice = Take(task: WorkerTask) | Wait | Conclude(status: RunStatus)

  datatype Ending = Abandoned | Reported(status: RunStatus)

  /** The state of the machine in which the worker decided to end the run, the report that it then queued, and the moment
      at which it last looked for a cancellation. */
  datatype Verdict = Verdict(top: P.Sys, report: Report, at: nat)

  /** What the worker meets: at each moment the time, the fate of a request, what the background heartbeat has noticed, how
      a search ends, and whether the process is told to stop. */
  datatype Environment = Environment(
    time: nat -> nat, channel: nat -> Channel, cancelled: nat -> bool, lost: nat -> bool, outcome: nat -> SearchOutcome)

  ghost predicate Onwards(env: Environment) { forall m, n :: 0 <= m <= n ==> env.time(m) <= env.time(n) }

  class ProspectingWorker {
    const store: MemoryStore.MemoryWorkerStore
    const crm: FakeCrmPort.FakeCrm
    const refuses: Payload -> bool  // the payloads that the CRM rejects permanently
    var moment: nat                 // how often the environment was consulted
    var nextEvent: EventId          // event ids are never used twice

    ghost predicate Ready(r: RunId)
      reads store, crm
    {
      store.Valid() && crm.Valid() && r in store.runs && r in crm.runs
    }

    constructor (store: MemoryStore.MemoryWorkerStore, crm: FakeCrmPort.FakeCrm, refuses: Payload -> bool, nextEvent: EventId)
      ensures this.store == store && this.crm == crm && this.refuses == refuses && this.nextEvent == nextEvent
    {
      this.store, this.crm, this.refuses, this.nextEvent, this.moment := store, crm, refuses, nextEvent, 0;
    }

    /** `_deliver_message`: the call that the kind of the message selects. */
    method DeliverMessage(r: RunId, token: Token, now: nat, k: Key, p: Payload) returns (answer: Response)
      requires crm.Valid() && r in crm.runs
      modifies crm`runs, crm`idempotency, crm`results
      ensures crm.Valid() && answer == Call(old(crm.View(r)), token, now, k, p, refuses(p)).1
      ensures crm.Became(r, Call(old(crm.View(r)), token, now, k, p, refuses(p)).0, old(crm.runs))
    {
      if refuses(p) { return Rejected; }
      match p
      case Events(events) => answer := crm.AppendEvents(r, token, now, events, k);
      case Candidates(batch) => answer := crm.UpsertCandidates(r, token, now, batch, k);
      case Complete(report) => answer := crm.CompleteRun(r, token, now, report, k);
      case Fail(error) => answer := crm.FailRun(r, token, now, error, k);
    }

    /** `_finalize_outbox_delivery`. */
    method FinalizeDelivery(r: RunId, k: Key)
      requires store.Valid() && r in store.runs && k in store.runs[r].outbox
      modifies store`runs
      ensures store.Valid()
      ensures MemoryStore.Becomes(old(store.runs), store.runs, r, Finalize(old(store.runs[r]), k, old(store.runs[r].outbox[k])))
    {
      assert k.Owner() == r by { assert Sound(r, store.runs[r]); }
      hide Sound;
      match store.runs[r].outbox[k]
      case Complete(report) => store.FinalizeTerminalOutbox(r, k, report.status);
      case Fail(_) => store.FinalizeTerminalOutbox(r, k, RunFailed);
      case _ => store.MarkOutboxDelivered(k);
    }

    /** The `except` branch for a permanent rejection: split, discard, or bury. */
    method IsolateMessage(r: RunId, k: Key, now: nat) returns (more: bool)
      requires store.Valid() && r in store.runs && Queued(store.runs[r], k)
      modifies store`runs
      ensures store.Valid() && more == Isolate(old(store.runs[r]), k, now).1
      ensures MemoryStore.Becomes(old(store.runs), store.runs, r, Isolate(old(store.runs[r]), k, now).0)
    {
      assert k.Owner() == r by { assert Sound(r, store.runs[r]); }
      hide Sound, Split, MarkFailed, Discard;
      var p := store.runs[r].outbox[k];
      if p.Candidates? {
        if |p.batch| > 1 {
          var split := store.SplitCandidateOutbox(k);
          if split { return true; }
        } else if |p.batch| == 1 {
          var discarded := store.DiscardCandidateOutbox(k);
          if discarded { return true; }
        }
      }
      var _ := store.MarkOutboxFailed(k, false, now);
      more := false;
    }

    /** What the worker records once the CRM has answered. */
    static function Responded(run: MemoryRun, k: Key, answer: Response, now: nat): (MemoryRun, bool)
      requires k in run.outbox
    {
      match answer
      case Done => (Settle(run, k, run.outbox[k], answer), true)
      case Acked(_) => (Settle(run, k, run.outbox[k], answer), true)
      case LeaseLost => (run, false)
      case Conflict => (MarkFailed(run, k, false, now), false)
      case Missing => (MarkFailed(run, k, true, now), false)
      case Rejected => Isolate(run, k, now)
    }

    method Mark(r: RunId, k: Key, retryable: bool, now: nat)
      requires store.Valid() && r in store.runs && k in store.runs[r].outbox
      modifies store`runs
      ensures store.Valid() && MemoryStore.Becomes(old(store.runs), store.runs, r, MarkFailed(old(store.runs[r]), k, retryable, now))
    {
      assert k.Owner() == r by { assert Sound(r, store.runs[r]); }
      hide Sound, MarkFailed;
      var _ := store.MarkOutboxFailed(k, retryable, now);
    }

    method SettleDelivery(r: RunId, k: Key, answer: Response)
      requires store.Valid() && r in store.runs && k in store.runs[r].outbox
      modifies store`runs
      ensures store.Valid()
      ensures MemoryStore.Becomes(old(store.runs), store.runs, r, Settle(old(store.runs[r]), k, old(store.runs[r].outbox[k]), answer))
    {
      hide Sound, RecordAck, Finalize;
      if answer.Acked? {
        AckKeeps(store.runs[r], k, answer.ack);
        store.RecordCandidateAck(r, k, answer.ack);
      }
      FinalizeDelivery(r, k);
    }

    method Respond(r: RunId, k: Key, answer: Response, now: nat) returns (more: bool)
      requires store.Valid() && r in store.runs && Queued(store.runs[r], k)
      modifies store`runs
      ensures store.Valid() && more == Responded(old(store.runs[r]), k, answer, now).1
      ensures MemoryStore.Becomes(old(store.runs), store.runs, r, Responded(old(store.runs[r]), k, answer, now).0)
    {
      hide Sound, MarkFailed, Isolate, Settle;
      match answer
      case LeaseLost => more := false;
      case Missing =>
        Mark(r, k, true, now);
        more := false;
      case Conflict =>
        Mark(r, k, false, now);
        more := false;
      case Rejected => more := IsolateMessage(r, k, now);
      case Acked(_) =>
        SettleDelivery(r, k, answer);
        more := true;
      case Done =>
        SettleDelivery(r, k, answer);
        more := true;
    }

    /** The body of the `for` loop of `_deliver_outbox`. A request can be lost, its answer can be lost, or the
        process can stop before the answer is recorded. */
    method DeliverOne(r: RunId, token: Token, now: nat, k: Key, channel: Channel) returns (more: bool)
      requires Ready(r) && Queued(store.runs[r], k)
      modifies store`runs, crm`runs, crm`idempotency, crm`results
      ensures Ready(r)
      ensures more == StoreAfter(old(crm.View(r)), old(store.runs[r]), token, now, k, channel, refuses(old(store.runs[r].outbox[k]))).1
      ensures MemoryStore.Becomes(old(store.runs), store.runs, r,
        StoreAfter(old(crm.View(r)), old(store.runs[r]), token, now, k, channel, refuses(old(store.runs[r].outbox[k]))).0)
      ensures crm.Became(r, CrmAfter(old(crm.View(r)), token, now, k, old(store.runs[r].outbox[k]), channel, refuses(old(store.runs[r].outbox[k]))),
                         old(crm.runs))
    {
      hide Sound, Call, MarkFailed, Isolate, Settle;
      if channel == RequestLost {
        Mark(r, k, true, now);
        return false;
      }
      var answer := DeliverMessage(r, token, now, k, store.runs[r].outbox[k]);
      if channel == Answered {
        more := Respond(r, k, answer, now);
      } else {
        if channel == ResponseLost { Mark(r, k, true, now); }
        more := false;
      }
    }

    static lemma AckKeeps(run: MemoryRun, k: Key, ack: Ack)
      ensures RecordAck(run, k, ack).outbox == run.outbox
    {
    }

    // ---------- the loop ----------

    ghost predicate Reliable(env: Environment, until: nat) { forall n :: env.channel(n) == Answered && env.time(n) <= until }

    /** The attempts lead from the CRM and the store as they were to what they are. */
    ghost predicate Drove(r: RunId, token: Token, start: Drive, attempts: seq<Attempt>, more: bool, upto: nat)
      reads store, crm
    {
      && Ready(r)
      && var d := Driven(start, token, refuses, attempts);
         d.fair && d.more == more && d.run == store.runs[r] && d.crm == crm.View(r) && d.now <= upto
    }

    /** What the delivery loop keeps: no new dead letter, the requests paid for, the candidates accounted for. */
    ghost predicate Going(r: RunId, before: map<RunId, MemoryRun>, known: set<Key>, requests: nat, acked: seq<Candidate>, valid: Candidate -> bool,
        smooth: bool, token: Token, from: nat, until: nat)
      reads store, crm
    {
      && Ready(r) && r in before && MemoryStore.Becomes(before, store.runs, r, store.runs[r])
      && store.runs[r].dead == before[r].dead && Follows(before[r], store.runs[r], known, crm.idempotency)
      && requests + Waiting(store.runs[r], Weight) <= Waiting(before[r], Weight)
      && (RejectsInvalid(refuses, valid) ==> Conserved(before[r], store.runs[r], acked, valid))
      && (smooth ==> RejectsInvalid(refuses, valid) && Smooth(r, crm.View(r), store.runs[r], token, from, until))
    }

    method DeliverNext(r: RunId, token: Token, now: nat, k: Key, channel: Channel, ghost before: map<RunId, MemoryRun>,
        ghost known: set<Key>, ghost requests: nat, ghost acked: seq<Candidate>, ghost valid: Candidate -> bool, ghost smooth: bool,
        ghost from: nat, ghost until: nat, ghost start: Drive, ghost attempts: seq<Attempt>, ghost upto: nat)
      returns (more: bool, ghost confirmed: seq<Candidate>)
      requires Going(r, before, known, requests, acked, valid, smooth, token, from, until) && Queued(store.runs[r], k)
      requires smooth ==> channel == Answered && now <= until
      requires Drove(r, token, start, attempts, true, upto) && upto <= now
      modifies store`runs, crm`runs, crm`idempotency, crm`results
      ensures r in before && r in store.runs && MemoryStore.Becomes(before, store.runs, r, store.runs[r])
      ensures requests + 1 <= Waiting(before[r], Weight) && Ready(r) && Follows(before[r], store.runs[r], known, crm.idempotency)
      ensures more ==> Going(r, before, known, requests + 1, confirmed, valid, smooth, token, from, until)
      ensures more ==> Waiting(store.runs[r], Weight) < old(Waiting(store.runs[r], Weight))
      ensures more ==> forall m :: m != k && old(Queued(store.runs[r], m)) ==> Queued(store.runs[r], m)
      ensures !more ==> !smooth
      ensures !more && RejectsInvalid(refuses, valid) && store.runs[r].dead == before[r].dead ==>
                Conserved(before[r], store.runs[r], confirmed, valid)
      ensures Drove(r, token, start, attempts + [Attempt(k, now, channel)], more, now)
    {
      hide Sound, Valid, Rooted, Waiting, StoreAfter, CrmAfter, Smooth, RejectsInvalid, Conserved, OutcomeOf, Acknowledged, Queued, Follows, Driven;
      SoundValid(r, store.runs[r]);
      SoundRooted(r, store.runs[r]);
      assert k in store.runs[r].outbox by { QueuedIn(store.runs[r], k); }
      Attempted(r, before[r], crm.View(r), store.runs[r], token, from, until, now, k, channel, refuses, valid, acked);
      FollowsOn(before[r], known, crm.View(r), store.runs[r], token, now, k, channel, refuses(store.runs[r].outbox[k]));
      DrivenNext(start, token, refuses, attempts, Attempt(k, now, channel));
      confirmed := acked + Acknowledged(store.runs[r].outbox[k],
                     OutcomeOf(crm.View(r), store.runs[r], token, now, k, channel, refuses(store.runs[r].outbox[k])));
      more := DeliverOne(r, token, now, k, channel);
    }

    static lemma QueuedIn(run: MemoryRun, k: Key)
      requires Queued(run, k)
      ensures k in run.outbox
    {
    }

    /** `_deliver_outbox`. `valid` says which candidates the CRM accepts, when its rejections are about candidates only.

        It is a sequence of attempts of the protocol. If it returns true nothing is queued. Unless a message was buried,
        every valid candidate was acknowledged or is still queued, exactly as often as before, and every invalid one was
        discarded and counted or is still queued. It makes at most 2n - 1 requests for a batch of n. If nothing goes wrong
        before the lease ends it delivers everything. */
    method DeliverOutbox(r: RunId, token: Token, env: Environment, ghost valid: Candidate -> bool, ghost until: nat)
      returns (drained: bool, crashed: bool, ghost acked: seq<Candidate>, ghost attempts: seq<Attempt>, ghost more: bool)
      requires Ready(r) && Onwards(env)
      modifies this`moment, store`runs, crm`runs, crm`idempotency, crm`results
      ensures Ready(r) && MemoryStore.Becomes(old(store.runs), store.runs, r, store.runs[r])
      ensures Follows(old(store.runs[r]), store.runs[r], old(crm.idempotency.Keys), crm.idempotency)
      ensures Drove(r, token, old(Drive(crm.View(r), store.runs[r], env.time(moment), true, true)), attempts, more, env.time(moment))
      ensures drained ==> more && Drained(store.runs[r]) && store.runs[r].dead == old(store.runs[r].dead)
      ensures crashed <==> !more && |attempts| > 0 && attempts[|attempts| - 1].channel == Crashed
      ensures |attempts| <= Waiting(old(store.runs[r]), Weight) && old(moment) <= moment
      ensures RejectsInvalid(refuses, valid) && store.runs[r].dead == old(store.runs[r].dead) ==>
                Conserved(old(store.runs[r]), store.runs[r], acked, valid)
      ensures RejectsInvalid(refuses, valid) && Reliable(env, until) && old(Smooth(r, crm.View(r), store.runs[r], token, env.time(moment), until))
        ==> drained
    {
      hide Waiting, Weight, Drained, RejectsInvalid, Conserved, Due, Smooth, Going, Follows, MemoryStore.DueKeys, Queued, Sound, NoRepeats,
        Drove, Driven;
      acked, attempts, more := [], [], true;
      ghost var before, known, from := store.runs, crm.idempotency.Keys, env.time(moment);
      ghost var start := Drive(crm.View(r), store.runs[r], from, true, true);
      ghost var smooth := RejectsInvalid(refuses, valid) && Reliable(env, until) && Smooth(r, crm.View(r), store.runs[r], token, from, until);
      GoingStarts(r, valid, smooth, token, from, until, start);
      while true
        invariant Ready(r) && Going(r, before, known, |attempts|, acked, valid, smooth, token, from, until)
        invariant from <= env.time(moment) && old(moment) <= moment && Drove(r, token, start, attempts, true, env.time(moment))
        decreases Waiting(store.runs[r], Weight)
      {
        var messages := store.GetOutbox(r, env.time(moment), 50);
        GoingMeans(r, before, known, |attempts|, acked, valid, smooth, token, from, until);
        OutboxFacts(r, token, from, until, env.time(moment), smooth);
        if |messages| == 0 {
          var pending := store.HasPendingOutbox(r);
          return !pending, false, acked, attempts, true;
        }
        var goesOn;
        goesOn, crashed, acked, attempts := DeliverDue(r, token, env, messages, before, known, acked, valid, smooth, from, until, start, attempts);
        if !goesOn { return false, crashed, acked, attempts, false; }
      }
    }

    /** One turn of the `for` loop of `_deliver_outbox`. */
    method TryNext(r: RunId, token: Token, env: Environment, k: Key, ghost before: map<RunId, MemoryRun>, ghost known: set<Key>,
        ghost sure: seq<Candidate>, ghost valid: Candidate -> bool, ghost smooth: bool, ghost from: nat, ghost until: nat, ghost start: Drive,
        ghost made: seq<Attempt>)
      returns (more: bool, crashed: bool, ghost acked: seq<Candidate>, ghost attempts: seq<Attempt>)
      requires Going(r, before, known, |made|, sure, valid, smooth, token, from, until) && (smooth ==> Reliable(env, until)) && Onwards(env)
      requires Drove(r, token, start, made, true, env.time(moment)) && Queued(store.runs[r], k)
      modifies this`moment, store`runs, crm`runs, crm`idempotency, crm`results
      ensures r in before && Ready(r) && MemoryStore.Becomes(before, store.runs, r, store.runs[r])
      ensures |attempts| == |made| + 1 && |attempts| <= Waiting(before[r], Weight) && Follows(before[r], store.runs[r], known, crm.idempotency)
      ensures more ==> Going(r, before, known, |attempts|, acked, valid, smooth, token, from, until) && !crashed
      ensures more ==> Waiting(store.runs[r], Weight) < old(Waiting(store.runs[r], Weight))
      ensures more ==> forall m :: m != k && old(Queued(store.runs[r], m)) ==> Queued(store.runs[r], m)
      ensures !more ==> !smooth && (crashed <==> attempts[|attempts| - 1].channel == Crashed)
      ensures !more && RejectsInvalid(refuses, valid) && store.runs[r].dead == before[r].dead ==>
                Conserved(before[r], store.runs[r], acked, valid)
      ensures Drove(r, token, start, attempts, more, env.time(moment)) && old(moment) <= moment
    {
      hide Waiting, Weight, RejectsInvalid, Conserved, Smooth, Going, Follows, Queued, Sound, Drove, Driven, Onwards;
      var now, channel := env.time(moment), env.channel(moment);
      more, acked := DeliverNext(r, token, now, k, channel, before, known, |made|, sure, valid, smooth, from, until, start, made, now);
      attempts, moment := made + [Attempt(k, now, channel)], moment + 1;
      TimeGrows(env, moment - 1, moment);
      DroveLater(r, token, start, attempts, more, now, env.time(moment));
      crashed := !more && channel == Crashed;
    }

    /** The `for` loop of `_deliver_outbox`. */
    method DeliverDue(r: RunId, token: Token, env: Environment, messages: seq<Key>, ghost before: map<RunId, MemoryRun>, ghost known: set<Key>,
        ghost sure: seq<Candidate>, ghost valid: Candidate -> bool, ghost smooth: bool, ghost from: nat, ghost until: nat, ghost start: Drive,
        ghost made: seq<Attempt>)
      returns (more: bool, crashed: bool, ghost acked: seq<Candidate>, ghost attempts: seq<Attempt>)
      requires |messages| > 0 && (forall i, j :: 0 <= i < j < |messages| ==> messages[i] != messages[j])
      requires Going(r, before, known, |made|, sure, valid, smooth, token, from, until) && (smooth ==> Reliable(env, until)) && Onwards(env)
      requires Drove(r, token, start, made, true, env.time(moment)) && forall j :: 0 <= j < |messages| ==> Queued(store.runs[r], messages[j])
      modifies this`moment, store`runs, crm`runs, crm`idempotency, crm`results
      ensures r in before && Ready(r) && MemoryStore.Becomes(before, store.runs, r, store.runs[r])
      ensures |attempts| <= Waiting(before[r], Weight) && Follows(before[r], store.runs[r], known, crm.idempotency)
      ensures more ==> Going(r, before, known, |attempts|, acked, valid, smooth, token, from, until)
      ensures more ==> Waiting(store.runs[r], Weight) < old(Waiting(store.runs[r], Weight)) && !crashed
      ensures !more ==> !smooth && |attempts| > 0 && (crashed <==> attempts[|attempts| - 1].channel == Crashed)
      ensures !more && RejectsInvalid(refuses, valid) && store.runs[r].dead == before[r].dead ==>
                Conserved(before[r], store.runs[r], acked, valid)
      ensures Drove(r, token, start, attempts, more, env.time(moment)) && old(moment) <= moment
    {
      hide Waiting, Weight, RejectsInvalid, Conserved, Smooth, Going, Follows, Queued, Sound, Drove, Driven, Onwards, Reliable;
      acked, attempts := sure, made;
      GoingReady(r, before, known, |made|, acked, valid, smooth, token, from, until);
      for m := 0 to |messages|
        invariant Going(r, before, known, |attempts|, acked, valid, smooth, token, from, until) && Ready(r) && old(moment) <= moment
        invariant Drove(r, token, start, attempts, true, env.time(moment))
        invariant forall j :: m <= j < |messages| ==> Queued(store.runs[r], messages[j])
        invariant if m == 0 then store.runs == old(store.runs) else Waiting(store.runs[r], Weight) < old(Waiting(store.runs[r], Weight))
      {
        more, crashed, acked, attempts := TryNext(r, token, env, messages[m], before, known, acked, valid, smooth, from, until, start, attempts);
        if !more { return; }
      }
      GoingMeans(r, before, known, |attempts|, acked, valid, smooth, token, from, until);
      more, crashed := true, false;
    }

    lemma GoingReady(r: RunId, before: map<RunId, MemoryRun>, known: set<Key>, requests: nat, acked: seq<Candidate>, valid: Candidate -> bool,
        smooth: bool, token: Token, from: nat, until: nat)
      requires Going(r, before, known, requests, acked, valid, smooth, token, from, until)
      ensures Ready(r)
    {
    }

    lemma DroveLater(r: RunId, token: Token, start: Drive, attempts: seq<Attempt>, more: bool, now: nat, later: nat)
      requires Drove(r, token, start, attempts, more, now) && now <= later
      ensures Drove(r, token, start, attempts, more, later)
    {
      hide Driven;
    }

    lemma GoingStarts(r: RunId, valid: Candidate -> bool, smooth: bool, token: Token, from: nat, until: nat, start: Drive)
      requires Ready(r) && (smooth ==> RejectsInvalid(refuses, valid) && Smooth(r, crm.View(r), store.runs[r], token, from, until))
      requires start == Drive(crm.View(r), store.runs[r], from, true, true)
      ensures Going(r, store.runs, crm.idempotency.Keys, 0, [], valid, smooth, token, from, until)
      ensures Drove(r, token, start, [], true, from)
    {
      ConservedAtStart(store.runs[r], valid);
      assert Sound(r, store.runs[r]);
      hide Waiting, Smooth;
    }

    lemma GoingMeans(r: RunId, before: map<RunId, MemoryRun>, known: set<Key>, requests: nat, acked: seq<Candidate>, valid: Candidate -> bool,
        smooth: bool, token: Token, from: nat, until: nat)
      requires Going(r, before, known, requests, acked, valid, smooth, token, from, until)
      ensures Ready(r) && r in before && MemoryStore.Becomes(before, store.runs, r, store.runs[r])
      ensures store.runs[r].dead == before[r].dead && requests <= Waiting(before[r], Weight)
      ensures Follows(before[r], store.runs[r], known, crm.idempotency)
      ensures RejectsInvalid(refuses, valid) ==> Conserved(before[r], store.runs[r], acked, valid)
      ensures smooth ==> Smooth(r, crm.View(r), store.runs[r], token, from, until)
    {
      hide Waiting, Smooth;
    }

    /** What get_outbox returns is queued; if it returns nothing and delivery is smooth, nothing is queued. */
    lemma OutboxFacts(r: RunId, token: Token, from: nat, until: nat, now: nat, smooth: bool)
      requires Ready(r) && from <= now && (smooth ==> Smooth(r, crm.View(r), store.runs[r], token, from, until))
      ensures var due := MemoryStore.DueKeys(store.runs[r], store.runs[r].queue, now); var keys := due[..Min(50, |due|)];
        && (forall i, j :: 0 <= i < j < |keys| ==> keys[i] != keys[j])
        && (forall j :: 0 <= j < |keys| ==> Queued(store.runs[r], keys[j]))
        && (smooth && |keys| == 0 ==> Drained(store.runs[r]))
    {
      hide Sound, Valid, Smooth, Drained;
      SoundValid(r, store.runs[r]);
      MemoryStore.DueMessages(store.runs[r], now, 50);
      if smooth && |MemoryStore.DueKeys(store.runs[r], store.runs[r].queue, now)| == 0 {
        SmoothDrained(r, crm.View(r), store.runs[r], token, from, until, now);
      }
    }

    static lemma ConservedAtStart(run: MemoryRun, valid: Candidate -> bool)
      ensures Conserved(run, run, [], valid)
    {
    }

    /** A batch that alone is queued, under a CRM that rejects a batch exactly if it holds an invalid candidate: at most
        2n - 1 requests are made. If the outbox is drained, each valid candidate was acknowledged exactly as often as the
        batch holds it, no invalid one was, and exactly the invalid ones were discarded and counted. If nothing goes wrong
        before the lease ends it is drained. */
    method IsolateBatch(r: RunId, token: Token, env: Environment, k: Key, ghost valid: Candidate -> bool, ghost until: nat)
      returns (drained: bool, ghost acked: seq<Candidate>, ghost requests: nat)
      requires Ready(r) && Onwards(env) && RejectsInvalid(refuses, valid)
      requires Queued(store.runs[r], k) && store.runs[r].outbox[k].Candidates? && |store.runs[r].outbox[k].batch| > 0
      requires forall m :: Queued(store.runs[r], m) ==> m == k
      modifies this`moment, store`runs, crm`runs, crm`idempotency, crm`results
      ensures Ready(r) && requests <= 2 * |old(store.runs[r].outbox[k].batch)| - 1
      ensures drained ==>
        && Drained(store.runs[r]) && store.runs[r].dead == old(store.runs[r].dead)
        && (forall c :: multiset(acked)[c] == if valid(c) then multiset(old(store.runs[r].outbox[k].batch))[c] else 0)
        && store.runs[r].rejectedInvalid == old(store.runs[r].rejectedInvalid) + Invalid(old(store.runs[r].outbox[k].batch), valid)
      ensures Reliable(env, until) && old(Smooth(r, crm.View(r), store.runs[r], token, env.time(moment), until)) ==> drained
    {
      hide Waiting, Conserved, RejectsInvalid, Sound, Valid, Smooth, Follows, Drove, Drained, Reliable, Weight;
      SoundValid(r, store.runs[r]);
      ghost var start := store.runs[r];
      BatchCosts(start, k);
      var crashed;
      ghost var attempts, more;
      drained, crashed, acked, attempts, more := DeliverOutbox(r, token, env, valid, until);
      requests := |attempts|;
      if drained { BatchIsIsolated(start, store.runs[r], k, acked, valid); }
    }

    // ---------- terminal replays ----------

    /** The body of the loop of `_reconcile_terminal_outbox`: here even a lost lease only postpones the message. */
    method ReplayOne(r: RunId, k: Key, now: nat, channel: Channel)
      requires Ready(r) && Queued(store.runs[r], k) && store.runs[r].token.Some?
      modifies store`runs, crm`runs, crm`idempotency, crm`results
      ensures Ready(r)
      ensures MemoryStore.Becomes(old(store.runs), store.runs, r,
        StoreAfterReplay(old(crm.View(r)), old(store.runs[r]), now, k, channel, refuses(old(store.runs[r].outbox[k]))))
      ensures crm.Became(r, CrmAfter(old(crm.View(r)), old(store.runs[r].token.value), now, k, old(store.runs[r].outbox[k]), channel,
                                     refuses(old(store.runs[r].outbox[k]))), old(crm.runs))
    {
      hide Sound, Call, MarkFailed, Finalize;
      if channel == RequestLost {
        Mark(r, k, true, now);
        return;
      }
      var answer := DeliverMessage(r, store.runs[r].token.value, now, k, store.runs[r].outbox[k]);
      if channel == Crashed { return; }
      if channel == ResponseLost || answer == LeaseLost || answer == Missing {
        Mark(r, k, true, now);
      } else if answer == Conflict || answer == Rejected {
        Mark(r, k, false, now);
      } else {
        FinalizeDelivery(r, k);
      }
    }

    // ---------- a session, beside the protocol machine ----------

    /** The state of the machine is that of the CRM, the store and the worker; the event ids to come are new to the store. */
    static ghost predicate Pictures(s: P.Sys, i: AgentId, r: RunId, run: MemoryRun, crm: Crm, refuses: Payload -> bool, next: EventId, now: nat) {
      && s.rid == r && s.refuses == refuses && i in s.agents && s.agents[i].store == run && s.crm == crm && s.nextEvent == next && s.now <= now
      && forall e: EventId :: EventKey(r, e) in run.outbox ==> e < next
    }

    ghost predicate Mirrors(s: P.Sys, i: AgentId, r: RunId, env: Environment)
      reads this, store, crm
    {
      Ready(r) && Onwards(env) && Pictures(s, i, r, store.runs[r], crm.View(r), refuses, nextEvent, env.time(moment))
    }

    /** Saving an event moves both sides alike. */
    static lemma SavedPictures(s: P.Sys, s': P.Sys, i: AgentId, r: RunId, run: MemoryRun, crm: Crm, refuses: Payload -> bool, next: EventId, now: nat,
        e: RunEvent, pc: P.Pc)
      requires Pictures(s, i, r, run, crm, refuses, next, now) && Queues(s, s', i, SaveEvent(run, r, e), pc)
      requires e.id == next && s'.nextEvent == s.nextEvent + 1
      ensures Pictures(s', i, r, SaveEvent(run, r, e), crm, refuses, next + 1, now) && s'.agents[i].pc == pc
    {
    }

    /** A run of the machine leads from s0 to s, which mirrors the objects with the worker at pc. */
    ghost predicate Stands(s0: P.Sys, s: P.Sys, i: AgentId, r: RunId, env: Environment, pc: P.Pc)
      reads this, store, crm
    {
      Leads(s0, s) && Mirrors(s, i, r, env) && s.agents[i].pc == pc
    }

    lemma GoesTo(s0: P.Sys, s: P.Sys, t: P.Sys, i: AgentId, r: RunId, env: Environment, pc: P.Pc)
      requires Leads(s0, s) && Leads(s, t) && Mirrors(t, i, r, env) && t.agents[i].pc == pc
      ensures Stands(s0, t, i, r, env, pc)
    {
      hide Leads;
      LeadsOn(s0, s, t);
    }

    /** The clock is read. */
    method Now(env: Environment, ghost i: AgentId, ghost r: RunId, ghost s0: P.Sys, ghost s: P.Sys, ghost pc: P.Pc)
      returns (now: nat, ghost s': P.Sys)
      requires Stands(s0, s, i, r, env, pc)
      modifies this`moment
      ensures now == env.time(old(moment)) && moment == old(moment) + 1 && Stands(s0, s', i, r, env, pc) && s' == s.(now := now)
    {
      hide Leads;
      now := env.time(moment);
      moment := moment + 1;
      s' := TimeGoesOn(s, now);
      GoesTo(s0, s, s', i, r, env, pc);
    }

    /** What every delivery leaves as it was: other runs, tasks, messages, and the keys that the CRM knows. */
    ghost predicate Kept(r: RunId, before: map<RunId, MemoryRun>, known: set<Key>)
      reads store, crm
    {
      && Ready(r) && r in before && MemoryStore.Becomes(before, store.runs, r, store.runs[r]) && known <= crm.idempotency.Keys
      && store.runs[r].tasks == before[r].tasks && store.runs[r].order == before[r].order && store.runs[r].cap == before[r].cap
      && (forall k :: k in before[r].outbox ==> k in store.runs[r].outbox && store.runs[r].outbox[k] == before[r].outbox[k])
      && (forall k :: k in store.runs[r].outbox ==> k in before[r].outbox || k.SplitKey?)
    }

    static predicate QueuedEvent(run: MemoryRun, k: Key) { Queued(run, k) && run.outbox[k].Events? }

    /** Where the machine's worker is after a delivery: it goes on, it has died, or it has stopped delivering, and then only
        a search that was about to begin can still be followed by a cancellation. */
    static ghost function PcAfterDelivery(token: Token, next: P.Resume, drained: bool, crashed: bool): P.Pc {
      if drained then P.Resumed(P.Session(token, P.Draining(next)))
      else if !crashed && next.ToSearch? then P.Session(token, P.Closing) else P.Idle
    }

    /** `_deliver_outbox` as the session sees it: after a drained outbox the CRM knows every event that was queued. */
    method Deliver(r: RunId, token: Token, env: Environment, ghost i: AgentId, ghost s0: P.Sys, ghost s: P.Sys, ghost next: P.Resume)
      returns (drained: bool, crashed: bool, ghost s': P.Sys)
      requires Stands(s0, s, i, r, env, P.Session(token, P.Draining(next)))
      modifies this`moment, store`runs, crm`runs, crm`idempotency, crm`results
      ensures Kept(r, old(store.runs), old(crm.idempotency.Keys))
      ensures drained ==> forall k :: QueuedEvent(old(store.runs[r]), k) ==> k in crm.idempotency
      ensures (drained ==> !crashed) && old(moment) <= moment
      ensures Stands(s0, s', i, r, env, PcAfterDelivery(token, next, drained, crashed))
    {
      hide Sound, Conserved, Waiting, Smooth, RejectsInvalid, Leads, Drove;
      ghost var acked, attempts, more;
      ghost var t := TimeGoesOn(s, env.time(moment));
      label Before:
      drained, crashed, acked, attempts, more := DeliverOutbox(r, token, env, c => true, 0);
      if drained {
        forall k | QueuedEvent(old(store.runs[r]), k) ensures k in crm.idempotency { assert !Queued(store.runs[r], k); }
      }
      ghost var u := AttemptsMade(r, token, env, i, t, next, attempts, more, crashed);
      LeadsOn(s, t, u);
      s' := Concluded(r, token, env, i, u, next, drained, crashed, more);
      LeadsOn(s, u, s');
      GoesTo(s0, s, s', i, r, env, PcAfterDelivery(token, next, drained, crashed));
    }

    /** The attempts are steps of the machine. */
    lemma AttemptsMade(r: RunId, token: Token, env: Environment, i: AgentId, s: P.Sys, next: P.Resume, attempts: seq<Attempt>, more: bool,
        crashed: bool)
      returns (s': P.Sys)
      requires i in s.agents && s.agents[i].pc == P.Session(token, P.Draining(next)) && s.rid == r && s.refuses == refuses && Onwards(env)
      requires Drove(r, token, Drive(s.crm, s.agents[i].store, s.now, true, true), attempts, more, env.time(moment))
      requires crashed <==> !more && |attempts| > 0 && attempts[|attempts| - 1].channel == Crashed
      requires s.nextEvent == nextEvent
      requires forall e: EventId :: EventKey(r, e) in store.runs[r].outbox ==> e < nextEvent
      ensures Leads(s, s') && Mirrors(s', i, r, env)
      ensures s'.agents[i].pc == (if more then P.Session(token, P.Draining(next)) else P.Halted(s.agents[i].pc, if crashed then Crashed else Answered))
    {
      hide Leads, Driven, P.Halted;
      s' := DriveLeads(s, i, attempts);
    }

    lemma Concluded(r: RunId, token: Token, env: Environment, i: AgentId, s: P.Sys, next: P.Resume, drained: bool, crashed: bool, more: bool)
      returns (s': P.Sys)
      requires Mirrors(s, i, r, env) && (drained ==> more && Drained(store.runs[r]) && !crashed) && (crashed ==> !more)
      requires s.agents[i].pc == (if more then P.Session(token, P.Draining(next))
                                  else P.Halted(P.Session(token, P.Draining(next)), if crashed then Crashed else Answered))
      ensures Leads(s, s') && Mirrors(s', i, r, env) && s'.agents[i].pc == PcAfterDelivery(token, next, drained, crashed)
    {
      hide Leads, Drained, Sound, Onwards;
      LeadsHere(s);
      if drained {
        s' := DrainEndsNow(s, i);
      } else if !more {
        s' := s;
      } else if next.ToSearch? {
        s' := Closes(s, i);
      } else {
        s' := Leaves(s, i);
      }
    }

    // ---------- the end of a run ----------

    /** The four statuses that a report can have. */
    static predicate Final(status: RunStatus) { status in {RunCompleted, RunPartial, RunCancelled, RunFailed} }

    static ghost predicate ReportedAs(run: MemoryRun, r: RunId, report: Report) {
      TerminalKey(r, report.status) in run.outbox && run.outbox[TerminalKey(r, report.status)] == Complete(report)
    }

    /** `_complete`: the summary as it stands becomes the report of the run, and is delivered if possible. */
    method ReportRun(r: RunId, token: Token, status: RunStatus, deliveryFailed: bool, limitReached: bool, env: Environment,
        ghost i: AgentId, ghost s0: P.Sys, ghost s: P.Sys)
      returns (ghost s': P.Sys)
      requires Stands(s0, s, i, r, env, P.Session(token, P.Closing)) && Final(status)
      modifies this`moment, store`runs, crm`runs, crm`idempotency, crm`results
      ensures Ready(r) && old(crm.idempotency.Keys) <= crm.idempotency.Keys && Stands(s0, s', i, r, env, P.Idle)
      ensures store.runs[r].tasks == old(store.runs[r].tasks) && old(moment) <= moment
      ensures ReportedAs(store.runs[r], r, Report(status, Summary(old(store.runs[r])), deliveryFailed, limitReached))
    {
      hide Sound, Summary, Leads, Mirrors;
      assert Ready(r) by { MirrorsReady(s, i, r, env); }
      var summary := store.Summarise(r);
      ghost var t := QueueReport(r, token, Report(status, summary, deliveryFailed, limitReached), env, i, s0, s);
      var drained, crashed;
      drained, crashed, s' := Deliver(r, token, env, i, s0, t, P.ToExit);
    }

    lemma MirrorsReady(s: P.Sys, i: AgentId, r: RunId, env: Environment)
      requires Mirrors(s, i, r, env)
      ensures Ready(r) && Onwards(env)
    {
    }

    method QueueReport(r: RunId, token: Token, report: Report, env: Environment, ghost i: AgentId, ghost s0: P.Sys, ghost s: P.Sys)
      returns (ghost s': P.Sys)
      requires Stands(s0, s, i, r, env, P.Session(token, P.Closing)) && Final(report.status)
      modifies store`runs
      ensures Ready(r) && Stands(s0, s', i, r, env, P.Session(token, P.Draining(P.ToExit)))
      ensures store.runs[r].tasks == old(store.runs[r].tasks) && ReportedAs(store.runs[r], r, report)
    {
      hide Sound, Leads, Onwards;
      s' := QueuesReport(s, i, report);
      store.QueueTerminal(r, report.status, Complete(report));
      GoesTo(s0, s, s', i, r, env, P.Session(token, P.Draining(P.ToExit)));
    }

    /** A report with the status is queued, and no task is pending or running. */
    ghost predicate Ended(r: RunId, status: RunStatus)
      reads store
    {
      && r in store.runs && (forall t :: t in store.runs[r].tasks ==> !store.runs[r].tasks[t].status.Open())
      && exists report: Report :: report.status == status && ReportedAs(store.runs[r], r, report)
    }

    /** Cancel what is open. */
    method CloseTasks(r: RunId, token: Token, env: Environment, ghost i: AgentId, ghost s0: P.Sys, ghost s: P.Sys, ghost phase: P.Phase)
      returns (ghost s': P.Sys)
      requires Stands(s0, s, i, r, env, P.Session(token, phase))
      modifies store`runs
      ensures Ready(r) && Stands(s0, s', i, r, env, P.Session(token, P.Closing))
      ensures store.runs[r] == CancelTasks(old(store.runs[r]))
      ensures forall t :: t in store.runs[r].tasks ==> !store.runs[r].tasks[t].status.Open()
    {
      hide Sound, Leads;
      ghost var t := Closes(s, i);
      LeadsOn(s0, s, t);
      s' := CancelsTasks(t, i);
      store.CancelTasks(r);
      GoesTo(s0, t, s', i, r, env, P.Session(token, P.Closing));
    }

    /** The run was ended for a reason that the record at the moment of the decision gives, or because a cancellation was
        seen, and the report has that record's summary. */
    ghost predicate Concludes(v: Verdict, s0: P.Sys, s': P.Sys, i: AgentId, r: RunId, token: Token, env: Environment, status: RunStatus)
      reads this, store
    {
      && Leads(s0, v.top) && Leads(v.top, s') && i in v.top.agents && v.top.agents[i].pc.Session? && v.top.agents[i].pc.token == token
      && v.report.status == status && r in store.runs && ReportedAs(store.runs[r], r, v.report)
      && v.report.stats == Summary(CancelTasks(v.top.agents[i].store))
      && Justified(v.top.agents[i].store, v.report, (v.at < moment && env.cancelled(v.at)) || CancelSeen(v.top.crm.run, token))
    }

    /** What is known of the way in which the worker left the run. */
    ghost predicate EndsAs(ending: Ending, v: Option<Verdict>, s0: P.Sys, s': P.Sys, i: AgentId, r: RunId, token: Token, env: Environment)
      reads this, store
    {
      ending.Reported? ==> Ended(r, ending.status) && v.Some? && Concludes(v.value, s0, s', i, r, token, env, ending.status)
    }

    lemma MirrorsHave(s: P.Sys, i: AgentId, r: RunId, env: Environment)
      requires Mirrors(s, i, r, env)
      ensures i in s.agents && Ready(r) && s.agents[i].store == store.runs[r] && s.crm.run == crm.runs[r] && StoreSpec.Valid(store.runs[r])
    {
      hide Onwards;
      SoundRun(r);
    }

    /** Cancel what is open and report the run. */
    method Stop(r: RunId, token: Token, status: RunStatus, deliveryFailed: bool, limitReached: bool, env: Environment,
        ghost i: AgentId, ghost s0: P.Sys, ghost s: P.Sys, ghost phase: P.Phase)
      returns (ghost s': P.Sys, ghost v: Verdict)
      requires Stands(s0, s, i, r, env, P.Session(token, phase)) && status != RunCancelled && Ready(r)
      requires Justified(store.runs[r], Report(status, Summary(CancelTasks(store.runs[r])), deliveryFailed, limitReached), false)
      modifies this`moment, store`runs, crm`runs, crm`idempotency, crm`results
      ensures Ready(r) && Ended(r, status) && old(crm.idempotency.Keys) <= crm.idempotency.Keys && Stands(s0, s', i, r, env, P.Idle)
      ensures Concludes(v, s0, s', i, r, token, env, status)
    {
      hide Sound, Summary, ReportedAs, Leads, Mirrors, CancelTasks, Fails, OverBudget, OpenWork;
      ghost var report := Report(status, Summary(CancelTasks(store.runs[r])), deliveryFailed, limitReached);
      MirrorsHave(s, i, r, env);
      StandsHere(s0, s, i, r, env, P.Session(token, phase));
      ghost var t := CloseTasks(r, token, env, i, s, s, phase);
      s' := ReportRun(r, token, status, deliveryFailed, limitReached, env, i, s, t);
      v := Verdict(s, report, 0);
      LeadsOn(s0, s, s');
    }

    lemma StandsHere(s0: P.Sys, s: P.Sys, i: AgentId, r: RunId, env: Environment, pc: P.Pc)
      requires Stands(s0, s, i, r, env, pc)
      ensures Stands(s, s, i, r, env, pc) && Leads(s0, s)
    {
      hide Leads;
      LeadsHere(s);
    }

    /** `_cancel`. */
    method Cancel(r: RunId, token: Token, env: Environment, ghost i: AgentId, ghost s0: P.Sys, ghost s: P.Sys, ghost phase: P.Phase, ghost at: nat)
      returns (ghost s': P.Sys, ghost v: Verdict)
      requires Stands(s0, s, i, r, env, P.Session(token, phase)) && Ready(r)
      requires (at < moment && env.cancelled(at)) || CancelSeen(crm.runs[r], token)
      modifies this`moment, this`nextEvent, store`runs, crm`runs, crm`idempotency, crm`results
      ensures Ready(r) && Ended(r, RunCancelled) && old(crm.idempotency.Keys) <= crm.idempotency.Keys && Stands(s0, s', i, r, env, P.Idle)
      ensures Concludes(v, s0, s', i, r, token, env, RunCancelled) && old(moment) <= moment
    {
      hide Sound, Summary, ReportedAs, Leads, Mirrors, CancelTasks;
      ghost var report := Report(RunCancelled, Summary(CancelTasks(store.runs[r])), false, false);
      MirrorsHave(s, i, r, env);
      StandsHere(s0, s, i, r, env, P.Session(token, phase));
      ghost var t := CloseTasks(r, token, env, i, s, s, phase);
      t := NoteCancel(r, token, env, i, s, t);
      s' := ReportRun(r, token, RunCancelled, false, false, env, i, s, t);
      v := Verdict(s, report, at);
      LeadsOn(s0, s, s');
    }

    method NoteCancel(r: RunId, token: Token, env: Environment, ghost i: AgentId, ghost s0: P.Sys, ghost s: P.Sys) returns (ghost s': P.Sys)
      requires Stands(s0, s, i, r, env, P.Session(token, P.Closing))
      modifies this`nextEvent, store`runs
      ensures Ready(r) && Stands(s0, s', i, r, env, P.Session(token, P.Closing)) && store.runs[r].tasks == old(store.runs[r].tasks)
      ensures Summary(store.runs[r]) == Summary(old(store.runs[r]))
    {
      hide Sound, Leads, Onwards, Queues, Summary;
      NoteIsNew(s, i, r, env);
      NoteKeepsSummary(r, store.runs[r], P.CancelNote(nextEvent));
      s' := NotesCancel(s, i);
      SaveNew(r, RunEvent(nextEvent, None, None, None, None, None, None, false), env, i, s0, s, s', P.Session(token, P.Closing));
    }

    lemma NoteIsNew(s: P.Sys, i: AgentId, r: RunId, env: Environment)
      requires Mirrors(s, i, r, env)
      ensures r in store.runs && EventKey(r, nextEvent) !in store.runs[r].outbox && Sound(r, store.runs[r])
    {
      hide Sound;
      assert store.Valid();
      SoundRun(r);
    }

    lemma SoundRun(r: RunId)
      requires store.Valid() && r in store.runs
      ensures Sound(r, store.runs[r])
    {
      hide Sound;
    }

    /** A note that no source ran out of budget does not show in the summary. */
    static lemma NoteKeepsSummary(r: RunId, run: MemoryRun, e: RunEvent)
      requires EventKey(r, e.id) !in run.outbox && !e.budgetLimited && Sound(r, run)
      ensures Summary(SaveEvent(run, r, e)) == Summary(run)
    {
      var after := SaveEvent(run, r, e);
      LimitedSame(run, after, run.queue);
      assert after.queue[..|run.queue|] == run.queue && after.queue[|run.queue|] == EventKey(r, e.id);
      assert [e][..0] == [];
      assert LimitedEvents([e]) == 0;
      assert forall status :: InStatus(after, status) == InStatus(run, status);
    }

    static lemma {:induction false} LimitedSame(a: MemoryRun, b: MemoryRun, keys: seq<Key>)
      requires forall k :: k in keys ==> k in a.outbox && k in b.outbox && b.outbox[k] == a.outbox[k]
      ensures LimitedMessages(b, keys) == LimitedMessages(a, keys)
    {
      if |keys| > 0 { LimitedSame(a, b, keys[..|keys| - 1]); }
    }

    // ---------- one task ----------

    /** Task ids are not shared with other runs of the store. */
    ghost predicate Apart(r: RunId)
      reads store
      requires r in store.runs
    {
      forall q :: q in store.runs && q != r ==> store.runs[q].tasks.Keys !! store.runs[r].tasks.Keys
    }

    static lemma {:induction false} FoundFirst(runs: map<RunId, MemoryRun>, order: seq<RunId>, r: RunId, t: TaskId)
      requires r in order && r in runs && t in runs[r].tasks
      requires forall q :: q in runs && q != r ==> t !in runs[q].tasks
      ensures MemoryStore.FirstWith(runs, order, t) == Some(r)
    {
      if order[0] != r { FoundFirst(runs, order[1..], r, t); }
    }

    ghost predicate Executing(r: RunId, task: WorkerTask, worker: AgentId, env: Environment)
      reads this, store
    {
      r in store.runs && Apart(r) && Executes(store.runs[r], task, worker, env.time(moment))
    }

    ghost predicate Resting(r: RunId, env: Environment)
      reads this, store
    {
      r in store.runs && Apart(r) && Rests(store.runs[r], env.time(moment))
    }

    /** An event of the worker is saved under a new id. */
    method SaveNew(r: RunId, e: RunEvent, env: Environment, ghost i: AgentId, ghost s0: P.Sys, ghost s: P.Sys, ghost t: P.Sys, ghost pc: P.Pc)
      requires Leads(s0, s) && Mirrors(s, i, r, env) && Leads(s, t) && e.id == nextEvent && t.nextEvent == s.nextEvent + 1
      requires Queues(s, t, i, SaveEvent(store.runs[r], r, e), pc)
      modifies this`nextEvent, store`runs
      ensures Ready(r) && Stands(s0, t, i, r, env, pc) && MemoryStore.Becomes(old(store.runs), store.runs, r, SaveEvent(old(store.runs[r]), r, e))
    {
      hide Sound, Leads, Onwards, Pictures, Queues, SaveEvent;
      SavedPictures(s, t, i, r, store.runs[r], crm.View(r), refuses, nextEvent, env.time(moment), e, pc);
      store.SaveEvent(r, e);
      nextEvent := nextEvent + 1;
      LeadsOn(s0, s, t);
    }

    /** The running event is queued. */
    method StartTask(r: RunId, token: Token, task: WorkerTask, env: Environment, ghost i: AgentId, ghost s0: P.Sys, ghost s: P.Sys)
      returns (ghost x: P.Exec, ghost s': P.Sys)
      requires Stands(s0, s, i, r, env, P.Session(token, P.Ready(task))) && Executing(r, task, i, env)
      modifies this`nextEvent, store`runs
      ensures Ready(r) && Stands(s0, s', i, r, env, P.Session(token, P.Draining(P.ToSearch(x)))) && Executing(r, task, i, env)
      ensures x == P.Exec(old(nextEvent), task.id, task.attempt, task.maxAttempts) && QueuedEvent(store.runs[r], EventKey(r, x.event))
      ensures store.runs[r].tasks == old(store.runs[r].tasks)
      ensures Spent(old(store.runs[r]), store.runs[r]) && LeftIn(store.runs[r]) == old(LeftIn(store.runs[r]))
    {
      hide Sound, Leads, Onwards, Executes, Spent, LeftIn, Queues;
      ghost var before := store.runs[r];
      var e := RunEvent(nextEvent, Some(task.id), Some(Running), Some(task.attempt), None, None, None, false);
      x := P.Exec(nextEvent, task.id, task.attempt, task.maxAttempts);
      s' := StartsTask(s, i);
      NewEventQueued(r, before, e);
      SaveNew(r, e, env, i, s0, s, s', P.Session(token, P.Draining(P.ToSearch(x))));
      SameTasksSame(before, store.runs[r], task, i, env.time(moment));
    }

    static lemma NewEventQueued(r: RunId, run: MemoryRun, e: RunEvent)
      requires Sound(r, run) && EventKey(r, e.id) !in run.outbox
      ensures QueuedEvent(SaveEvent(run, r, e), EventKey(r, e.id))
      ensures SaveEvent(run, r, e).tasks == run.tasks && SaveEvent(run, r, e).order == run.order
    {
    }

    static lemma TimeGrows(env: Environment, m: nat, n: nat)
      requires Onwards(env) && m <= n
      ensures env.time(m) <= env.time(n)
    {
    }

    /** What Deliver keeps of the tasks. */
    lemma KeptTasks(r: RunId, before: map<RunId, MemoryRun>, known: set<Key>, task: WorkerTask, i: AgentId, now: nat, later: nat)
      requires Kept(r, before, known) && now <= later
      ensures Executes(before[r], task, i, now) ==> Executes(store.runs[r], task, i, later)
      ensures Rests(before[r], now) ==> Rests(store.runs[r], later)
      ensures Spent(before[r], store.runs[r]) && LeftIn(store.runs[r]) == LeftIn(before[r])
      ensures (forall q :: q in before && q != r ==> before[q].tasks.Keys !! before[r].tasks.Keys) ==> Apart(r)
    {
      hide Executes, Rests, LeftIn, Spent, Sound;
      SameTasksSame(before[r], store.runs[r], task, i, now);
      if Executes(before[r], task, i, now) { ExecutesLater(store.runs[r], task, i, now, later); }
      if Rests(before[r], now) { RestsLater(store.runs[r], now, later); }
    }

    /** ... and delivered: if the outbox drains, the CRM has accepted it. */
    method Announce(r: RunId, token: Token, task: WorkerTask, env: Environment, ghost i: AgentId, ghost s0: P.Sys, ghost s: P.Sys)
      returns (drained: bool, crashed: bool, ghost x: P.Exec, ghost s': P.Sys)
      requires Stands(s0, s, i, r, env, P.Session(token, P.Ready(task))) && Executing(r, task, i, env)
      modifies this`moment, this`nextEvent, store`runs, crm`runs, crm`idempotency, crm`results
      ensures Ready(r) && Stands(s0, s', i, r, env, PcAfterDelivery(token, P.ToSearch(x), drained, crashed)) && Executing(r, task, i, env)
      ensures x.task == task.id && x.attempt == task.attempt && x.maxAttempts == task.maxAttempts
      ensures old(crm.idempotency.Keys) <= crm.idempotency.Keys && (drained ==> !crashed && EventKey(r, x.event) in crm.idempotency)
      ensures old(moment) <= moment && store.runs[r].tasks == old(store.runs[r].tasks)
      ensures Spent(old(store.runs[r]), store.runs[r]) && LeftIn(store.runs[r]) == old(LeftIn(store.runs[r]))
    {
      hide Sound, Leads, Onwards, Executes, LeftIn, Mirrors, PcAfterDelivery, QueuedEvent;
      x, s' := StartTask(r, token, task, env, i, s0, s);
      ghost var before, known, start := store.runs, crm.idempotency.Keys, moment;
      drained, crashed, s' := Deliver(r, token, env, i, s0, s', P.ToSearch(x));
      MirrorsReady(s', i, r, env);
      TimeGrows(env, start, moment);
      KeptTasks(r, before, known, task, i, env.time(start), env.time(moment));
    }

    /** The machine's worker searches for the task. */
    static ghost predicate IsFor(x: P.Exec, task: WorkerTask) {
      x.task == task.id && x.attempt == task.attempt && x.maxAttempts == task.maxAttempts
    }

    /** `fail_task` in the exception branch. */
    method GiveBack(r: RunId, token: Token, task: WorkerTask, env: Environment, worker: AgentId, ghost x: P.Exec, ghost s0: P.Sys, ghost s: P.Sys)
      returns (ghost s': P.Sys)
      requires Stands(s0, s, worker, r, env, P.Session(token, P.Doing(x, P.Searching))) && Executing(r, task, worker, env) && IsFor(x, task)
      modifies store`runs
      ensures Stands(s0, s', worker, r, env, P.Session(token, P.Doing(x, P.Failing))) && Resting(r, env)
      ensures Spent(old(store.runs[r]), store.runs[r]) && store.runs[r] == FailTask(old(store.runs[r]), task.id, worker)
    {
      hide Sound, LeftIn, Leads, Onwards, Spent, Pictures;
      FoundFirst(store.runs, store.order, r, task.id);
      FailRests(store.runs[r], task, worker, env.time(moment));
      hide Executes, Rests;
      PicturesAgent(s, worker, r, store.runs[r], crm.View(r), refuses, nextEvent, env.time(moment));
      s' := GivesBack(s, worker);
      TasksPictures(s, s', worker, r, store.runs[r], FailTask(store.runs[r], task.id, worker), crm.View(r), refuses, nextEvent, env.time(moment),
                    P.Session(token, P.Doing(x, P.Failing)));
      var _ := store.FailTask(task.id, worker);
      GoesTo(s0, s, s', worker, r, env, P.Session(token, P.Doing(x, P.Failing)));
    }

    method FinishHeld(r: RunId, token: Token, task: WorkerTask, env: Environment, worker: AgentId, results: nat, rejected: nat,
        ghost x: P.Exec, ghost s0: P.Sys, ghost s: P.Sys)
      returns (ghost s': P.Sys)
      requires Stands(s0, s, worker, r, env, P.Session(token, P.Doing(x, P.Saved))) && Executing(r, task, worker, env) && IsFor(x, task)
      modifies store`runs
      ensures Stands(s0, s', worker, r, env, P.Session(token, P.Doing(x, P.Finished))) && Resting(r, env)
      ensures Spent(old(store.runs[r]), store.runs[r]) && store.runs[r] == FinishTask(old(store.runs[r]), task.id, worker, results, rejected)
    {
      hide Sound, LeftIn, Leads, Onwards, Spent, Pictures;
      FoundFirst(store.runs, store.order, r, task.id);
      FinishRests(store.runs[r], task, worker, env.time(moment), results, rejected);
      hide Executes, Rests;
      PicturesAgent(s, worker, r, store.runs[r], crm.View(r), refuses, nextEvent, env.time(moment));
      s' := FinishesTask(s, worker, results, rejected);
      TasksPictures(s, s', worker, r, store.runs[r], FinishTask(store.runs[r], task.id, worker, results, rejected), crm.View(r), refuses,
                    nextEvent, env.time(moment), P.Session(token, P.Doing(x, P.Finished)));
      var _ := store.FinishTask(task.id, worker, results, rejected);
      GoesTo(s0, s, s', worker, r, env, P.Session(token, P.Doing(x, P.Finished)));
    }

    /** The end of the execution is reported. */
    method ReportEnd(r: RunId, token: Token, e: RunEvent, env: Environment, ghost i: AgentId, ghost s0: P.Sys, ghost s: P.Sys)
      returns (ghost s': P.Sys)
      requires Leads(s0, s) && Mirrors(s, i, r, env) && Resting(r, env) && s.agents[i].pc.Session? && s.agents[i].pc.token == token
      requires s.agents[i].pc.phase.Doing?
      requires (s.agents[i].pc.phase.stage == P.Finished && P.IsDoneEvent(e, nextEvent, s.agents[i].pc.phase.exec))
        || (s.agents[i].pc.phase.stage == P.Failing && P.IsFailureEvent(e, nextEvent, s.agents[i].pc.phase.exec))
      modifies this`nextEvent, store`runs
      ensures Stands(s0, s', i, r, env, P.Session(token, P.Draining(P.ToTop))) && Resting(r, env)
      ensures Spent(old(store.runs[r]), store.runs[r]) && store.runs[r] == SaveEvent(old(store.runs[r]), r, e)
    {
      hide Sound, LeftIn, Leads, Onwards, Spent, Rests, Queues, Executes;
      ghost var before := store.runs[r];
      s' := ReportsEnd(s, i, e);
      SaveNew(r, e, env, i, s0, s, s', P.Session(token, P.Draining(P.ToTop)));
      SameTasksSame(before, store.runs[r], WorkerTask(0, GooglePlaces, 0, 0), 0, env.time(moment));
    }

    /** The exception branch of `_execute_task`. */
    method RecordFailure(r: RunId, token: Token, task: WorkerTask, env: Environment, worker: AgentId, ghost x: P.Exec, ghost s0: P.Sys, ghost s: P.Sys)
      returns (ghost s': P.Sys)
      requires Stands(s0, s, worker, r, env, P.Session(token, P.Doing(x, P.Searching))) && Executing(r, task, worker, env) && IsFor(x, task)
      modifies this`nextEvent, store`runs
      ensures Stands(s0, s', worker, r, env, P.Session(token, P.Draining(P.ToTop))) && Resting(r, env)
      ensures Spent(old(store.runs[r]), store.runs[r])
      ensures Settled(old(store.runs[r]), store.runs[r], r, task, Raised, old(nextEvent))
    {
      hide Sound, Leads, Onwards, Executes, Rests, LeftIn, Mirrors, Settled, SaveEvent, FailTask, Spent;
      ghost var before := store.runs[r];
      FailureSettles(before, r, task, worker, nextEvent, env.time(moment));
      s' := GiveBack(r, token, task, env, worker, x, s0, s);
      var status := if task.attempt >= task.maxAttempts then Failed else Pending;
      ghost var between := store.runs[r];
      s' := ReportEnd(r, token, RunEvent(nextEvent, Some(task.id), Some(status), None, None, None, None, false), env, worker, s0, s');
      SpentOn(before, between, store.runs[r]);
    }

    /** What an execution leaves in the store: the record and the messages say how the search ended, and nothing else changed. */
    static ghost predicate Settled(before: MemoryRun, after: MemoryRun, r: RunId, task: WorkerTask, outcome: SearchOutcome, e: EventId) {
      && task.id in before.tasks && task.id in after.tasks && after.tasks == before.tasks[task.id := after.tasks[task.id]]
      && match outcome
         case Stopped => false
         case Raised =>
           var status := if task.attempt >= task.maxAttempts then Failed else Pending;
           && after.tasks[task.id] == before.tasks[task.id].(status := status, owner := None)
           && after.outbox == before.outbox[EventKey(r, e) := Events([RunEvent(e, Some(task.id), Some(status), None, None, None, None, false)])]
         case Found(kept, found, discarded, limited, budgetLimited) =>
           var done := RunEvent(e, Some(task.id), Some(Completed), None, Some(|kept|), Some(found), Some(discarded), budgetLimited);
           && after.tasks[task.id] == before.tasks[task.id].(status := Completed, results := |kept|, rejected := discarded + limited, owner := None)
           && after.outbox
              == (if kept == [] then before.outbox else before.outbox[CandidatesKey(r, task.id, task.attempt) := Candidates(kept)])
                 [EventKey(r, e) := Events([done])]
    }

    static lemma FailureSettles(before: MemoryRun, r: RunId, task: WorkerTask, worker: AgentId, e: EventId, now: nat)
      requires Executes(before, task, worker, now)
      ensures var status := if task.attempt >= task.maxAttempts then Failed else Pending;
        Settled(before, SaveEvent(FailTask(before, task.id, worker), r, RunEvent(e, Some(task.id), Some(status), None, None, None, None, false)),
                r, task, Raised, e)
    {
    }

    static lemma SuccessSettles(before: MemoryRun, r: RunId, task: WorkerTask, worker: AgentId, result: SearchOutcome, e: EventId, now: nat)
      requires Executes(before, task, worker, now) && result.Found?
      ensures var kept := result.kept;
        var finished := FinishTask(QueueCandidates(before, r, task.id, task.attempt, kept), task.id, worker, |kept|, result.discarded + result.limited);
        var done := RunEvent(e, Some(task.id), Some(Completed), None, Some(|kept|), Some(result.found), Some(result.discarded), result.budgetLimited);
        Settled(before, SaveEvent(finished, r, done), r, task, result, e)
    {
    }

    method QueueKept(r: RunId, token: Token, task: WorkerTask, kept: seq<Candidate>, env: Environment, ghost i: AgentId, ghost x: P.Exec,
        ghost s0: P.Sys, ghost s: P.Sys)
      returns (ghost s': P.Sys)
      requires Stands(s0, s, i, r, env, P.Session(token, P.Doing(x, P.Searching))) && Executing(r, task, i, env) && IsFor(x, task)
      modifies store`runs
      ensures Stands(s0, s', i, r, env, P.Session(token, P.Doing(x, P.Saved))) && Executing(r, task, i, env)
      ensures Spent(old(store.runs[r]), store.runs[r])
      ensures store.runs[r] == QueueCandidates(old(store.runs[r]), r, task.id, task.attempt, kept)
    {
      hide Sound, Leads, Onwards, Executes, Rests, LeftIn, Spent, QueueCandidates, Queues, Pictures;
      ghost var before := store.runs[r];
      PicturesAgent(s, i, r, before, crm.View(r), refuses, nextEvent, env.time(moment));
      s' := SavesKept(s, i, kept);
      SavedKeepsTasks(before, r, task, kept);
      KeptPictures(s, s', i, r, before, crm.View(r), refuses, nextEvent, env.time(moment), task, kept, P.Session(token, P.Doing(x, P.Saved)));
      store.QueueSaved(r, task, kept);
      GoesTo(s0, s, s', i, r, env, P.Session(token, P.Doing(x, P.Saved)));
      SameTasksSame(before, store.runs[r], task, i, env.time(moment));
    }

    static lemma PicturesAgent(s: P.Sys, i: AgentId, r: RunId, run: MemoryRun, crm: Crm, refuses: Payload -> bool, next: EventId, now: nat)
      requires Pictures(s, i, r, run, crm, refuses, next, now)
      ensures i in s.agents && s.agents[i].store == run && s.rid == r
    {
    }

    /** Changing the records alone moves both sides alike. */
    static lemma TasksPictures(s: P.Sys, s': P.Sys, i: AgentId, r: RunId, run: MemoryRun, after: MemoryRun, crm: Crm, refuses: Payload -> bool,
        next: EventId, now: nat, pc: P.Pc)
      requires Pictures(s, i, r, run, crm, refuses, next, now) && after.outbox == run.outbox && s' == P.With(s, i, after, pc)
      ensures Pictures(s', i, r, after, crm, refuses, next, now) && s'.agents[i].pc == pc
    {
    }

    static lemma KeptPictures(s: P.Sys, s': P.Sys, i: AgentId, r: RunId, run: MemoryRun, crm: Crm, refuses: Payload -> bool, next: EventId, now: nat,
        task: WorkerTask, kept: seq<Candidate>, pc: P.Pc)
      requires Pictures(s, i, r, run, crm, refuses, next, now) && Queues(s, s', i, QueueCandidates(run, r, task.id, task.attempt, kept), pc)
      requires s'.nextEvent == s.nextEvent
      ensures Pictures(s', i, r, QueueCandidates(run, r, task.id, task.attempt, kept), crm, refuses, next, now) && s'.agents[i].pc == pc
    {
    }

    static lemma SavedKeepsTasks(run: MemoryRun, r: RunId, task: WorkerTask, kept: seq<Candidate>)
      ensures var after := QueueCandidates(run, r, task.id, task.attempt, kept);
        && after.tasks == run.tasks && after.order == run.order
        && forall k :: k in after.outbox ==> k in run.outbox || k.CandidatesKey?
    {
    }

    method RecordSuccess(r: RunId, token: Token, task: WorkerTask, result: SearchOutcome, env: Environment, worker: AgentId, ghost x: P.Exec,
        ghost s0: P.Sys, ghost s: P.Sys)
      returns (ghost s': P.Sys)
      requires Stands(s0, s, worker, r, env, P.Session(token, P.Doing(x, P.Searching))) && Executing(r, task, worker, env) && IsFor(x, task)
      requires result.Found?
      modifies this`nextEvent, store`runs
      ensures Stands(s0, s', worker, r, env, P.Session(token, P.Draining(P.ToTop))) && Resting(r, env)
      ensures Spent(old(store.runs[r]), store.runs[r])
      ensures Settled(old(store.runs[r]), store.runs[r], r, task, result, old(nextEvent))
    {
      hide Sound, Leads, Onwards, Executes, Rests, LeftIn, Mirrors, Settled, SaveEvent, FinishTask, QueueCandidates, Spent;
      ghost var before := store.runs[r];
      SuccessSettles(before, r, task, worker, result, nextEvent, env.time(moment));
      s' := QueueKept(r, token, task, result.kept, env, worker, x, s0, s);
      ghost var between := store.runs[r];
      s' := FinishHeld(r, token, task, env, worker, |result.kept|, result.discarded + result.limited, x, s0, s');
      SpentOn(before, between, store.runs[r]);
      between := store.runs[r];
      s' := ReportEnd(r, token, RunEvent(nextEvent, Some(task.id), Some(Completed), None, Some(|result.kept|), Some(result.found),
                                         Some(result.discarded), result.budgetLimited), env, worker, s0, s');
      SpentOn(before, between, store.runs[r]);
    }

    /** The part of `_execute_task` that follows a drained outbox. */
    method Search(r: RunId, token: Token, task: WorkerTask, env: Environment, worker: AgentId, ghost x: P.Exec, ghost s0: P.Sys, ghost s: P.Sys)
      returns (end: TaskEnd, searched: bool, ghost s': P.Sys)
      requires Stands(s0, s, worker, r, env, P.Session(token, P.Doing(x, P.Searching))) && Executing(r, task, worker, env) && IsFor(x, task)
      modifies this`moment, this`nextEvent, store`runs
      ensures end != Died && old(moment) <= moment
      ensures end == SawCancel <==> env.cancelled(old(moment))
      ensures end == SawCancel ==> old(moment) < moment
      ensures Stands(s0, s', worker, r, env, P.Session(token, if end == Executed then P.Draining(P.ToTop) else P.Doing(x, P.Searching)))
      ensures end == Executed ==> Resting(r, env) && Spent(old(store.runs[r]), store.runs[r])
      ensures end == Executed ==> Settled(old(store.runs[r]), store.runs[r], r, task, env.outcome(old(moment)), old(nextEvent))
    {
      hide Sound, Leads, Executes, Rests, LeftIn, Spent, Settled;
      searched, s' := false, s;
      MirrorsReady(s, worker, r, env);
      TimeGrows(env, moment, moment + 1);
      ExecutesLater(store.runs[r], task, worker, env.time(moment), env.time(moment + 1));
      var outcome, cancelled := env.outcome(moment), env.cancelled(moment);
      moment := moment + 1;
      assert Stands(s0, s, worker, r, env, P.Session(token, P.Doing(x, P.Searching)));
      hide Mirrors, Onwards;
      if cancelled { return SawCancel, searched, s'; }
      searched := true;
      match outcome
      case Stopped =>
        // The lease of the run was lost, or a cancellation was seen, which the caller looks for first. The third reason of
        // the source, that the lease of the task was lost, cannot happen: ProtocolLeases.TaskLeaseHolds.
        end := LostLease;
      case Raised =>
        s' := RecordFailure(r, token, task, env, worker, x, s0, s);
        end := Executed;
      case Found(_, _, _, _, _) =>
        s' := RecordSuccess(r, token, task, outcome, env, worker, x, s0, s);
        end := Executed;
    }

    /** `_execute_task`. The search starts only after the CRM has accepted the running event. */
    method ExecuteTask(r: RunId, token: Token, task: WorkerTask, env: Environment, worker: AgentId, ghost s0: P.Sys, ghost s: P.Sys)
      returns (end: TaskEnd, ghost search: Option<Key>, ghost s': P.Sys, ghost at: nat, ghost between: MemoryRun)
      requires Stands(s0, s, worker, r, env, P.Session(token, P.Ready(task))) && Executing(r, task, worker, env)
      modifies this`moment, this`nextEvent, store`runs, crm`runs, crm`idempotency, crm`results
      ensures Leads(s0, s') && Mirrors(s', worker, r, env) && old(crm.idempotency.Keys) <= crm.idempotency.Keys && old(moment) <= moment
      ensures search.Some? ==> search.value in crm.idempotency
      ensures end == SawCancel ==> at < moment && env.cancelled(at)
      ensures if end == Died then s'.agents[worker].pc.Idle? else s'.agents[worker].pc.Session? && s'.agents[worker].pc.token == token
      ensures end == Executed ==>
        s'.agents[worker].pc.phase == P.Draining(P.ToTop) && Resting(r, env) && Spent(old(store.runs[r]), store.runs[r])
      ensures end == Executed ==>
        between.tasks == old(store.runs[r].tasks) && exists e :: Settled(between, store.runs[r], r, task, env.outcome(at), e)
    {
      hide Sound, Leads, Executes, Rests, LeftIn, Spent, Executing, Resting, Onwards, Settled;
      var drained, crashed;
      ghost var x;
      search, at := None, 0;
      drained, crashed, x, s' := Announce(r, token, task, env, worker, s0, s);
      SpentOn(old(store.runs[r]), store.runs[r], store.runs[r]);
      between := store.runs[r];
      if crashed { return Died, search, s', at, between; }
      if !drained { return LostLease, search, s', at, between; }
      at := moment;
      var searched;
      end, searched, s' := Search(r, token, task, env, worker, x, s0, s');
      if searched { search := Some(EventKey(r, x.event)); }
      if end == Executed { SpentOn(old(store.runs[r]), between, store.runs[r]); }
    }

    static lemma SpentOn(a: MemoryRun, b: MemoryRun, c: MemoryRun)
      ensures Spent(a, b) && Spent(b, c) ==> Spent(a, c)
    {
      hide LeftIn;
    }

    // ---------- the loop over tasks ----------

    /** `_renew_run_lease` and the question whether the run is cancelled. */
    method Renew(r: RunId, token: Token, task: WorkerTask, env: Environment, seconds: nat, ghost i: AgentId, ghost s0: P.Sys, ghost s: P.Sys)
      returns (valid: bool, cancelled: bool, ghost s': P.Sys)
      requires Stands(s0, s, i, r, env, P.Session(token, P.Holding(task))) && Executing(r, task, i, env)
      modifies this`moment, crm`runs
      ensures Stands(s0, s', i, r, env, P.Session(token, if valid then P.Ready(task) else P.Holding(task))) && Executing(r, task, i, env)
      ensures old(moment) <= moment && r in crm.runs && (cancelled <==> CancelSeen(crm.runs[r], token))
    {
      hide Sound, Leads, Executes;
      MirrorsReady(s, i, r, env);
      TimeGrows(env, moment, moment + 1);
      ExecutesLater(store.runs[r], task, i, env.time(moment), env.time(moment + 1));
      hide Onwards;
      var now;
      now, s' := Now(env, i, r, s0, s, P.Session(token, P.Holding(task)));
      hide Executing, Stands;
      valid, cancelled, s' := BeatAt(now, r, token, task, env, seconds, i, s0, s');
    }

    /** The heartbeat of the run at the time now, and the question whether it is cancelled. */
    method BeatAt(now: nat, r: RunId, token: Token, task: WorkerTask, env: Environment, seconds: nat, ghost i: AgentId, ghost s0: P.Sys, ghost s: P.Sys)
      returns (valid: bool, cancelled: bool, ghost s': P.Sys)
      requires Stands(s0, s, i, r, env, P.Session(token, P.Holding(task))) && s.now == now
      modifies crm`runs
      ensures Stands(s0, s', i, r, env, P.Session(token, if valid then P.Ready(task) else P.Holding(task)))
      ensures r in crm.runs && (cancelled <==> CancelSeen(crm.runs[r], token))
    {
      hide Sound, Leads, Onwards;
      s' := s;
      if ValidLease(s.crm.run, token, now) { s' := RenewsLease(s, i, seconds); }
      var cancelRequested;
      valid, cancelRequested := crm.Heartbeat(r, token, now, seconds);
      var seen := crm.IsCancelRequested(r, token);
      cancelled := cancelRequested || seen;
      if valid { GoesTo(s0, s, s', i, r, env, P.Session(token, P.Ready(task))); }
    }

    /** The part of a turn after a task was claimed; `None` means that the loop goes on. */
    method RunTask(r: RunId, token: Token, task: WorkerTask, env: Environment, worker: AgentId, seconds: nat, ghost s0: P.Sys, ghost s: P.Sys)
      returns (ending: Option<Ending>, ghost search: Option<Key>, ghost s': P.Sys, ghost v: Option<Verdict>)
      requires Stands(s0, s, worker, r, env, P.Session(token, P.Holding(task))) && Executing(r, task, worker, env)
      modifies this`moment, this`nextEvent, store`runs, crm`runs, crm`idempotency, crm`results
      ensures Stands(s0, s', worker, r, env, if ending.None? then P.Session(token, P.AtTop) else P.Idle)
      ensures old(crm.idempotency.Keys) <= crm.idempotency.Keys && (search.Some? ==> search.value in crm.idempotency)
      ensures ending.None? ==> Resting(r, env) && Spent(old(store.runs[r]), store.runs[r])
      ensures ending.Some? ==> EndsAs(ending.value, v, s0, s', worker, r, token, env)
    {
      hide Sound, Leads, Executes, Rests, LeftIn, Spent, Executing, Resting, Onwards, Ended, Pictures, Valid;
      search, v := None, None;
      var valid, cancelled;
      valid, cancelled, s' := Renew(r, token, task, env, seconds, worker, s0, s);
      if !valid {
        s' := Leave(r, env, worker, s0, s');
        return Some(Abandoned), search, s', v;
      }
      if cancelled {
        ghost var why;
        s', why := Cancel(r, token, env, worker, s0, s', P.Ready(task), 0);
        return Some(Reported(RunCancelled)), search, s', Some(why);
      }
      ending, search, s', v := ExecuteOn(r, token, task, env, worker, s0, s');
    }

    /** The execution and what follows it. */
    method ExecuteOn(r: RunId, token: Token, task: WorkerTask, env: Environment, worker: AgentId, ghost s0: P.Sys, ghost s: P.Sys)
      returns (ending: Option<Ending>, ghost search: Option<Key>, ghost s': P.Sys, ghost v: Option<Verdict>)
      requires Stands(s0, s, worker, r, env, P.Session(token, P.Ready(task))) && Executing(r, task, worker, env)
      modifies this`moment, this`nextEvent, store`runs, crm`runs, crm`idempotency, crm`results
      ensures Stands(s0, s', worker, r, env, if ending.None? then P.Session(token, P.AtTop) else P.Idle)
      ensures old(crm.idempotency.Keys) <= crm.idempotency.Keys && (search.Some? ==> search.value in crm.idempotency)
      ensures ending.None? ==> Resting(r, env) && Spent(old(store.runs[r]), store.runs[r])
      ensures ending.Some? ==> EndsAs(ending.value, v, s0, s', worker, r, token, env)
    {
      hide Sound, Leads, Executes, Rests, LeftIn, Spent, Executing, Resting, Onwards, Ended, Pictures;
      ghost var before := store.runs[r];
      var end;
      ghost var at, start;
      end, search, s', at, start := ExecuteTask(r, token, task, env, worker, s0, s);
      ghost var between := store.runs[r];
      ending, s', v := AfterTask(r, token, end, env, worker, s0, s', at);
      SpentOn(before, between, store.runs[r]);
    }

    /** The process leaves `_process_claim`. */
    ghost method Leave(r: RunId, env: Environment, i: AgentId, s0: P.Sys, s: P.Sys) returns (s': P.Sys)
      requires Leads(s0, s) && Mirrors(s, i, r, env)
      ensures Stands(s0, s', i, r, env, P.Idle)
    {
      hide Leads, Sound, Onwards;
      s' := Leaves(s, i);
      GoesTo(s0, s, s', i, r, env, P.Idle);
    }

    /** The tests that follow an execution, and the delivery of what it left queued. */
    method AfterTask(r: RunId, token: Token, end: TaskEnd, env: Environment, ghost worker: AgentId, ghost s0: P.Sys, ghost s: P.Sys, ghost at: nat)
      returns (ending: Option<Ending>, ghost s': P.Sys, ghost v: Option<Verdict>)
      requires Leads(s0, s) && Mirrors(s, worker, r, env) && (end == SawCancel ==> at < moment && env.cancelled(at))
      requires if end == Died then s.agents[worker].pc.Idle? else s.agents[worker].pc.Session? && s.agents[worker].pc.token == token
      requires end == Executed ==> s.agents[worker].pc.phase == P.Draining(P.ToTop) && Resting(r, env)
      modifies this`moment, this`nextEvent, store`runs, crm`runs, crm`idempotency, crm`results
      ensures Stands(s0, s', worker, r, env, if ending.None? then P.Session(token, P.AtTop) else P.Idle)
      ensures old(crm.idempotency.Keys) <= crm.idempotency.Keys
      ensures end != Died && (end == SawCancel || env.cancelled(old(moment))) ==> ending == Some(Reported(RunCancelled))
      ensures ending.None? ==> end == Executed && Resting(r, env) && Spent(old(store.runs[r]), store.runs[r])
      ensures ending.Some? ==> EndsAs(ending.value, v, s0, s', worker, r, token, env)
    {
      hide Sound, Leads, Rests, LeftIn, Spent, Ended, Executes;
      s', v := s, None;
      if end == Died { return Some(Abandoned), s', v; }
      var cancelled, lost := env.cancelled(moment), env.lost(moment);
      MomentPasses(r, env, worker, s);
      moment := moment + 1;
      hide Mirrors, Onwards;
      if end == SawCancel || cancelled {
        ghost var why;
        s', why := Cancel(r, token, env, worker, s0, s, s.agents[worker].pc.phase, if end == SawCancel then at else old(moment));
        return Some(Reported(RunCancelled)), s', Some(why);
      }
      if end == LostLease || lost {
        s' := Leave(r, env, worker, s0, s);
        return Some(Abandoned), s', v;
      }
      var drained;
      drained, s' := Redeliver(r, token, env, worker, s0, s);
      ending := if drained then None else Some(Abandoned);
    }

    /** Looking at the environment once more changes nothing that is mirrored. */
    lemma MomentPasses(r: RunId, env: Environment, i: AgentId, s: P.Sys)
      requires Mirrors(s, i, r, env)
      ensures env.time(moment) <= env.time(moment + 1) && s.now <= env.time(moment + 1) && Ready(r)
      ensures Pictures(s, i, r, store.runs[r], crm.View(r), refuses, nextEvent, env.time(moment + 1))
      ensures r in store.runs && Rests(store.runs[r], env.time(moment)) ==> Rests(store.runs[r], env.time(moment + 1))
    {
      hide Rests, Sound;
      TimeGrows(env, moment, moment + 1);
      if Rests(store.runs[r], env.time(moment)) { RestsLater(store.runs[r], env.time(moment), env.time(moment + 1)); }
    }

    /** Delivering between two tasks keeps the records at rest. */
    method Redeliver(r: RunId, token: Token, env: Environment, ghost i: AgentId, ghost s0: P.Sys, ghost s: P.Sys)
      returns (drained: bool, ghost s': P.Sys)
      requires Stands(s0, s, i, r, env, P.Session(token, P.Draining(P.ToTop))) && Resting(r, env)
      modifies this`moment, store`runs, crm`runs, crm`idempotency, crm`results
      ensures Stands(s0, s', i, r, env, if drained then P.Session(token, P.AtTop) else P.Idle) && Resting(r, env)
      ensures old(crm.idempotency.Keys) <= crm.idempotency.Keys
      ensures Spent(old(store.runs[r]), store.runs[r]) && LeftIn(store.runs[r]) == old(LeftIn(store.runs[r]))
    {
      hide Sound, Rests, Executes, LeftIn, Spent, Leads, Pictures;
      ghost var before, known, start := store.runs, crm.idempotency.Keys, moment;
      var crashed;
      drained, crashed, s' := Deliver(r, token, env, i, s0, s, P.ToTop);
      TimeGrows(env, start, moment);
      KeptTasks(r, before, known, WorkerTask(0, GooglePlaces, 0, 0), i, env.time(start), env.time(moment));
    }

    /** What claim_task leaves behind. */
    static ghost predicate Claimed(before: MemoryRun, after: MemoryRun, task: Option<WorkerTask>, worker: AgentId, now: nat) {
      && Spent(before, after)
      && if task.Some? then Executes(after, task.value, worker, now) && LeftIn(after) < LeftIn(before)
         else Rests(after, now) && forall t :: t in after.tasks && after.tasks[t].status.Open() ==> t in StrandedIn(after)
    }

    static lemma ClaimedLater(before: MemoryRun, after: MemoryRun, task: Option<WorkerTask>, worker: AgentId, now: nat, later: nat)
      requires Claimed(before, after, task, worker, now) && now <= later
      ensures Claimed(before, after, task, worker, later)
    {
      hide LeftIn;
    }

    static ghost function PcWith(token: Token, task: Option<WorkerTask>): P.Pc {
      P.Session(token, if task.Some? then P.Holding(task.value) else P.AtTop)
    }

    /** The machine takes the task, or passes. */
    static lemma ClaimPictures(s: P.Sys, i: AgentId, r: RunId, run: MemoryRun, crm: Crm, refuses: Payload -> bool, next: EventId, later: nat,
        token: Token, seconds: nat)
      returns (s': P.Sys)
      requires Pictures(s, i, r, run, crm, refuses, next, later) && s.agents[i].pc == P.Session(token, P.AtTop)
      requires run.dead == {} && run.baseline < run.cap
      ensures var (after, task) := ClaimTask(run, i, s.now, seconds);
        Leads(s, s') && Pictures(s', i, r, after, crm, refuses, next, later) && s'.agents[i].pc == PcWith(token, task)
    {
      ClaimTaskTakes(run, i, s.now, seconds);
      hide ClaimTask, Leads;
      if ClaimTask(run, i, s.now, seconds).1.Some? { s' := TakesTask(s, i, seconds); } else { s' := PassesTasks(s, i, seconds); }
    }

    /** `claim_task`: a task, or none, and then only stranded ones are open. */
    method TakeTask(r: RunId, token: Token, env: Environment, worker: AgentId, seconds: nat, ghost s0: P.Sys, ghost s: P.Sys)
      returns (task: Option<WorkerTask>, ghost s': P.Sys)
      requires Stands(s0, s, worker, r, env, P.Session(token, P.AtTop)) && Resting(r, env)
      requires store.runs[r].dead == {} && store.runs[r].baseline < store.runs[r].cap
      modifies this`moment, store`runs
      ensures Ready(r) && Apart(r) && Stands(s0, s', worker, r, env, PcWith(token, task)) && old(moment) <= moment
      ensures Claimed(old(store.runs[r]), store.runs[r], task, worker, env.time(moment))
      ensures store.runs[r] == old(store.runs[r]).(tasks := store.runs[r].tasks)
      ensures CanBeTaken(old(store.runs[r]), env.time(old(moment))) ==> task.Some?
    {
      hide Sound, Rests, Leads, Claimed, Onwards, PcWith, Pictures, CanBeTaken, ClaimTask;
      MirrorsReady(s, worker, r, env);
      TimeGrows(env, moment, moment + 1);
      var now;
      now, s' := Now(env, worker, r, s0, s, P.Session(token, P.AtTop));
      ghost var t := s';
      s' := ClaimPictures(t, worker, r, store.runs[r], crm.View(r), refuses, nextEvent, env.time(moment), token, seconds);
      SoundRun(r);
      ClaimedBy(r, store.runs[r], worker, now, env.time(moment), seconds);
      task := store.ClaimTask(r, worker, now, seconds);
      LeadsOn(s0, t, s');
    }

    /** Some task is pending, or its lease has run out, and has attempts left. */
    static ghost predicate CanBeTaken(run: MemoryRun, now: nat) {
      exists t :: t in run.tasks && run.tasks[t].attempts < run.tasks[t].maxAttempts
                  && (run.tasks[t].status == Pending
                      || (run.tasks[t].status == Running && run.tasks[t].expires.Some? && run.tasks[t].expires.value <= now))
    }

    static lemma ClaimedBy(r: RunId, run: MemoryRun, worker: AgentId, now: nat, later: nat, seconds: nat)
      requires Sound(r, run) && Rests(run, now) && now <= later
      ensures var (after, task) := ClaimTask(run, worker, now, seconds);
        && Claimed(run, after, task, worker, later) && after == run.(tasks := after.tasks) && after.tasks.Keys == run.tasks.Keys
        && (CanBeTaken(run, now) ==> task.Some?)
    {
      hide Sound, Rests, Claimed, CanBeTaken, ClaimTask;
      ClaimedNow(run, worker, now, seconds);
      var (after, task) := ClaimTask(run, worker, now, seconds);
      ClaimedLater(run, after, task, worker, now, later);
      TakenWhenItCanBe(r, run, worker, now, seconds);
    }

    static lemma TakenWhenItCanBe(r: RunId, run: MemoryRun, worker: AgentId, now: nat, seconds: nat)
      requires Sound(r, run)
      ensures var (after, task) := ClaimTask(run, worker, now, seconds);
        after == run.(tasks := after.tasks) && after.tasks.Keys == run.tasks.Keys && (CanBeTaken(run, now) ==> task.Some?)
    {
      ClaimTaskTakes(run, worker, now, seconds);
      if CanBeTaken(run, now) && ClaimTask(run, worker, now, seconds).1.None? {
        var t :| t in run.tasks && run.tasks[t].attempts < run.tasks[t].maxAttempts
                  && (run.tasks[t].status == Pending
                      || (run.tasks[t].status == Running && run.tasks[t].expires.Some? && run.tasks[t].expires.value <= now));
        assert t in run.order;
        ClaimTaskPasses(run, worker, now, seconds, t);
      }
    }

    static lemma ClaimedNow(run: MemoryRun, worker: AgentId, now: nat, seconds: nat)
      requires Rests(run, now)
      ensures var (after, task) := ClaimTask(run, worker, now, seconds); Claimed(run, after, task, worker, now)
    {
      hide ClaimTask, LeftIn, Rests, Executes, Takable;
      ClaimExecutes(run, worker, now, seconds);
      var (after, task) := ClaimTask(run, worker, now, seconds);
      assert Spent(run, after) && StrandedIn(after) == StrandedIn(run);
    }

    /** What a decision at the top of the loop leaves behind. */
    ghost predicate Decided(r: RunId, before: MemoryRun, choice: Choice, worker: AgentId, env: Environment)
      reads this, store
    {
      match choice
      case Take(task) => Executing(r, task, worker, env) && Spent(before, store.runs[r]) && LeftIn(store.runs[r]) < LeftIn(before)
      case Wait => Resting(r, env) && Spent(before, store.runs[r]) && StrandedIn(before) != {}
      case Conclude(status) => Ended(r, status)
    }

    static ghost function PcFor(token: Token, choice: Choice): P.Pc {
      match choice
      case Take(task) => P.Session(token, P.Holding(task))
      case Wait => P.Session(token, P.AtTop)
      case Conclude(_) => P.Idle
    }

    /** No task is left to take: the run is reported, unless a task is stranded. */
    method NoTaskLeft(r: RunId, token: Token, env: Environment, worker: AgentId, ghost s0: P.Sys, ghost s: P.Sys, ghost before: MemoryRun)
      returns (choice: Choice, ghost s': P.Sys, ghost v: Option<Verdict>)
      requires Stands(s0, s, worker, r, env, P.Session(token, P.AtTop)) && Apart(r)
      requires Claimed(before, store.runs[r], None, worker, env.time(moment))
      requires store.runs[r].dead == {} && store.runs[r].baseline < store.runs[r].cap
      modifies this`moment, store`runs, crm`runs, crm`idempotency, crm`results
      ensures Ready(r) && old(crm.idempotency.Keys) <= crm.idempotency.Keys && !choice.Take?
      ensures Decided(r, before, choice, worker, env) && Stands(s0, s', worker, r, env, PcFor(token, choice))
      ensures choice.Conclude? ==> v.Some? && Concludes(v.value, s0, s', worker, r, token, env, choice.status)
    {
      hide Sound, Rests, LeftIn, Summary, ReportedAs, Leads, Onwards, Pictures, Fails, OverBudget, CancelTasks;
      v := None;
      var summary := store.Summarise(r);
      OnlyStrandedOpen(store.runs[r]);
      MirrorsHave(s, worker, r, env);
      SummarySays(store.runs[r]);
      if summary.pending > 0 || summary.running > 0 { return Wait, s, v; }
      var status := if summary.failed > 0 || summary.deadLetters > 0 || summary.rejectedInvalid > 0 || summary.budgetLimited > 0
                    then RunPartial else RunCompleted;
      ghost var why;
      s', why := Finish(r, token, status, env, worker, s0, s);
      choice, v := Conclude(status), Some(why);
    }

    /** Nothing is open, so the run is reported as it stands. */
    method Finish(r: RunId, token: Token, status: RunStatus, env: Environment, ghost worker: AgentId, ghost s0: P.Sys, ghost s: P.Sys)
      returns (ghost s': P.Sys, ghost v: Verdict)
      requires Stands(s0, s, worker, r, env, P.Session(token, P.AtTop)) && Ready(r) && !OpenWork(store.runs[r]) && status != RunCancelled
      requires Justified(store.runs[r], Report(status, Summary(store.runs[r]), false, false), false)
      modifies this`moment, store`runs, crm`runs, crm`idempotency, crm`results
      ensures Ready(r) && Ended(r, status) && old(crm.idempotency.Keys) <= crm.idempotency.Keys && Stands(s0, s', worker, r, env, P.Idle)
      ensures Concludes(v, s0, s', worker, r, token, env, status)
    {
      hide Sound, Summary, ReportedAs, Leads, Mirrors, CancelTasks, Fails, OverBudget;
      ghost var report := Report(status, Summary(store.runs[r]), false, false);
      MirrorsHave(s, worker, r, env);
      NothingToCancel(store.runs[r]);
      StandsHere(s0, s, worker, r, env, P.Session(token, P.AtTop));
      ghost var t := CloseSession(r, token, env, worker, s, s, P.AtTop);
      s' := ReportRun(r, token, status, false, false, env, worker, s, t);
      v := Verdict(s, report, 0);
      LeadsOn(s0, s, s');
    }

    ghost method CloseSession(r: RunId, token: Token, env: Environment, i: AgentId, s0: P.Sys, s: P.Sys, phase: P.Phase) returns (s': P.Sys)
      requires Stands(s0, s, i, r, env, P.Session(token, phase))
      ensures Stands(s0, s', i, r, env, P.Session(token, P.Closing))
    {
      hide Leads, Sound, Onwards;
      s' := Closes(s, i);
      GoesTo(s0, s, s', i, r, env, P.Session(token, P.Closing));
    }

    /** The decisions at the top of the loop: dead letters, the limit, or no task left end the run with a report. */
    method Choose(r: RunId, token: Token, env: Environment, worker: AgentId, seconds: nat, ghost s0: P.Sys, ghost s: P.Sys)
      returns (choice: Choice, ghost s': P.Sys, ghost v: Option<Verdict>)
      requires Stands(s0, s, worker, r, env, P.Session(token, P.AtTop)) && Resting(r, env)
      modifies this`moment, store`runs, crm`runs, crm`idempotency, crm`results
      ensures Ready(r) && old(crm.idempotency.Keys) <= crm.idempotency.Keys
      ensures Decided(r, old(store.runs[r]), choice, worker, env) && Stands(s0, s', worker, r, env, PcFor(token, choice))
      ensures choice.Conclude? ==> v.Some? && Concludes(v.value, s0, s', worker, r, token, env, choice.status)
      ensures old(MayTake(store.runs[r], env.time(moment))) ==> choice.Take?
      ensures !choice.Conclude? ==> old(store.runs[r].dead == {} && store.runs[r].baseline < store.runs[r].cap)
    {
      hide Sound, Rests, Executes, LeftIn, Summary, ReportedAs, Leads, Onwards, Pictures, Ended, Spent, CanBeTaken, Concludes, Fails, OverBudget,
        OpenWork, CancelTasks, Claimed;
      ghost var before := store.runs[r];
      v := None;
      ghost var why;
      var summary := store.Summarise(r);
      MirrorsHave(s, worker, r, env);
      SummarySays(store.runs[r]);
      if summary.deadLetters > 0 {
        s', why := Stop(r, token, RunPartial, true, false, env, worker, s0, s, P.AtTop);
        return Conclude(RunPartial), s', Some(why);
      }
      if summary.candidates >= store.runs[r].cap {
        var status := if summary.failed > 0 || summary.deadLetters > 0 || summary.rejectedInvalid > 0 then RunPartial else RunCompleted;
        s', why := Stop(r, token, status, false, true, env, worker, s0, s, P.AtTop);
        return Conclude(status), s', Some(why);
      }
      var task;
      task, s' := TakeTask(r, token, env, worker, seconds, s0, s);
      if task.Some? {
        TakenMeans(before, store.runs[r], task.value, worker, env.time(moment));
        return Take(task.value), s', v;
      }
      choice, s', v := NoTaskLeft(r, token, env, worker, s0, s', before);
    }

    static lemma TakenMeans(before: MemoryRun, after: MemoryRun, task: WorkerTask, worker: AgentId, now: nat)
      requires Claimed(before, after, Some(task), worker, now)
      ensures Executes(after, task, worker, now) && LeftIn(after) < LeftIn(before) && Spent(before, after)
    {
    }

    /** Nothing keeps the worker from taking a task, and there is one to take. */
    static ghost predicate MayTake(run: MemoryRun, now: nat) { run.dead == {} && run.baseline < run.cap && CanBeTaken(run, now) }

    /** One turn of the loop; `None` means that the loop goes on. */
    method Turn(r: RunId, token: Token, env: Environment, worker: AgentId, seconds: nat, ghost s0: P.Sys, ghost s: P.Sys)
      returns (ending: Option<Ending>, took: bool, ghost search: Option<Key>, ghost s': P.Sys, ghost v: Option<Verdict>)
      requires Stands(s0, s, worker, r, env, P.Session(token, P.AtTop)) && Resting(r, env)
      modifies this`moment, this`nextEvent, store`runs, crm`runs, crm`idempotency, crm`results
      ensures Stands(s0, s', worker, r, env, if ending.None? then P.Session(token, P.AtTop) else P.Idle)
      ensures old(crm.idempotency.Keys) <= crm.idempotency.Keys && (search.Some? ==> took && search.value in crm.idempotency)
      ensures ending.None? ==> Resting(r, env) && Spent(old(store.runs[r]), store.runs[r])
      ensures ending.None? && took ==> LeftIn(store.runs[r]) < old(LeftIn(store.runs[r]))
      ensures ending.None? && !took ==> old(StrandedIn(store.runs[r])) != {}
      ensures ending.Some? ==> EndsAs(ending.value, v, s0, s', worker, r, token, env)
      ensures took ==> 1 <= old(LeftIn(store.runs[r]))
      ensures env.lost(old(moment)) ==> ending == Some(Abandoned)
      ensures !env.lost(old(moment)) && (env.cancelled(old(moment)) || old(CancelSeen(crm.runs[r], token))) ==> ending == Some(Reported(RunCancelled))
      ensures (!env.lost(old(moment)) && !env.cancelled(old(moment)) && !old(CancelSeen(crm.runs[r], token))
               && old(MayTake(store.runs[r], env.time(moment)))) ==> took
    {
      hide Sound, Rests, Executes, LeftIn, ReportedAs, Summary, Ended, Leads, Pictures, Spent, MayTake, Concludes;
      took, search, s', v := false, None, s, None;
      MirrorsHave(s, worker, r, env);
      LaterStillTaken(store.runs[r], env.time(moment), env.time(moment + 1));
      var cancelled, lost := env.cancelled(moment), env.lost(moment);
      MomentPasses(r, env, worker, s);
      moment := moment + 1;
      hide Onwards;
      if lost {
        s' := Leave(r, env, worker, s0, s);
        return Some(Abandoned), took, search, s', v;
      }
      var seen := crm.IsCancelRequested(r, token);
      if cancelled || seen {
        ghost var why;
        s', why := Cancel(r, token, env, worker, s0, s, P.AtTop, old(moment));
        return Some(Reported(RunCancelled)), took, search, s', Some(why);
      }
      ending, took, search, s', v := Act(r, token, env, worker, seconds, s0, s);
    }

    static lemma LaterStillTaken(run: MemoryRun, now: nat, later: nat)
      ensures now <= later && MayTake(run, now) ==> MayTake(run, later)
    {
    }

    method Act(r: RunId, token: Token, env: Environment, worker: AgentId, seconds: nat, ghost s0: P.Sys, ghost s: P.Sys)
      returns (ending: Option<Ending>, took: bool, ghost search: Option<Key>, ghost s': P.Sys, ghost v: Option<Verdict>)
      requires Stands(s0, s, worker, r, env, P.Session(token, P.AtTop)) && Resting(r, env)
      modifies this`moment, this`nextEvent, store`runs, crm`runs, crm`idempotency, crm`results
      ensures Stands(s0, s', worker, r, env, if ending.None? then P.Session(token, P.AtTop) else P.Idle)
      ensures old(crm.idempotency.Keys) <= crm.idempotency.Keys && (search.Some? ==> took && search.value in crm.idempotency)
      ensures ending.None? ==> Resting(r, env) && Spent(old(store.runs[r]), store.runs[r])
      ensures ending.None? && took ==> LeftIn(store.runs[r]) < old(LeftIn(store.runs[r]))
      ensures ending.None? && !took ==> old(StrandedIn(store.runs[r])) != {}
      ensures ending.Some? ==> EndsAs(ending.value, v, s0, s', worker, r, token, env)
      ensures took ==> 1 <= old(LeftIn(store.runs[r]))
      ensures old(MayTake(store.runs[r], env.time(moment))) ==> took
    {
      hide Sound, Rests, Executes, LeftIn, ReportedAs, Summary, Ended, Leads, Pictures, Mirrors, Resting, Executing, Concludes, MayTake;
      MirrorsReady(s, worker, r, env);
      var choice;
      search := None;
      choice, s', v := Choose(r, token, env, worker, seconds, s0, s);
      match choice
      case Take(task) =>
        ending, search, s', v := RunTask(r, token, task, env, worker, seconds, s0, s');
        took := true;
      case Wait => ending, took := None, false;
      case Conclude(status) => ending, took := Some(Reported(status)), false;
    }

    // ---------- the whole claim ----------

    static function RunFor(runs: map<RunId, MemoryRun>, r: RunId, cap: nat): MemoryRun {
      if r in runs then runs[r] else NewMemoryRun(cap)
    }

    /** The machine's worker has just been granted the claim. Task ids are not shared between the runs of the store. */
    ghost predicate Granted(s: P.Sys, i: AgentId, r: RunId, cap: nat, claim: Claim, env: Environment)
      reads this, store, crm
    {
      && store.Valid() && crm.Valid() && r in crm.runs && Onwards(env)
      && Pictures(s, i, r, RunFor(store.runs, r, cap), crm.View(r), refuses, nextEvent, env.time(moment)) && s.agents[i].pc == P.Claimed(claim)
      && (r in store.runs ==> Apart(r))
      && forall q, j :: q in store.runs && q != r && 0 <= j < |claim.tasks| ==> claim.tasks[j].id !in store.runs[q].tasks
    }

    method LoadClaim(r: RunId, cap: nat, claim: Claim, env: Environment, worker: AgentId, ghost s: P.Sys) returns (ghost s': P.Sys)
      requires Granted(s, worker, r, cap, claim, env)
      modifies this`moment, store
      ensures Stands(s, s', worker, r, env, P.Session(claim.token, P.Draining(P.ToTop))) && Resting(r, env)
      ensures store.runs[r] == EnsureRun(RunFor(old(store.runs), r, cap), claim, Some(worker), env.time(old(moment)))
    {
      hide Sound, Rests, EnsureRun, Ordered, Leads;
      var now := env.time(moment);
      ghost var before := RunFor(store.runs, r, cap);
      NewSound(r, cap);
      SoundOrdered(r, before);
      EnsureRests(before, claim, Some(worker), now);
      LoadedApart(store.runs, r, before, claim, worker, now);
      TimeGrows(env, moment, moment + 1);
      RestsLater(EnsureRun(before, claim, Some(worker), now), now, env.time(moment + 1));
      s' := LoadPictures(s, worker, r, before, crm.View(r), refuses, nextEvent, now, env.time(moment + 1), claim);
      hide Pictures, Onwards;
      store.EnsureRun(r, cap, claim, Some(worker), now);
      moment := moment + 1;
    }

    static lemma LoadPictures(s: P.Sys, i: AgentId, r: RunId, run: MemoryRun, crm: Crm, refuses: Payload -> bool, next: EventId, now: nat, later: nat,
        claim: Claim)
      returns (s': P.Sys)
      requires Pictures(s, i, r, run, crm, refuses, next, now) && now <= later && s.agents[i].pc == P.Claimed(claim)
      ensures Leads(s, s') && Pictures(s', i, r, EnsureRun(run, claim, Some(i), now), crm, refuses, next, later)
      ensures s'.agents[i].pc == P.Session(claim.token, P.Draining(P.ToTop))
    {
      hide Leads;
      EnsureKeepsOutbox(run, claim, Some(i), now);
      var t := TimeGoesOn(s, now);
      s' := LoadsClaim(t, i);
      LeadsOn(s, t, s');
      hide EnsureRun;
    }

    static lemma SoundOrdered(r: RunId, run: MemoryRun)
      requires Sound(r, run)
      ensures Ordered(run)
    {
    }

    /** No other run of the store has a task of the loaded one. */
    static lemma LoadedApart(runs: map<RunId, MemoryRun>, r: RunId, before: MemoryRun, claim: Claim, worker: AgentId, now: nat)
      requires forall q :: q in runs && q != r ==> runs[q].tasks.Keys !! before.tasks.Keys
      requires forall q, j :: q in runs && q != r && 0 <= j < |claim.tasks| ==> claim.tasks[j].id !in runs[q].tasks
      ensures forall q :: q in runs && q != r ==> runs[q].tasks.Keys !! EnsureRun(before, claim, Some(worker), now).tasks.Keys
      ensures EnsureRun(before, claim, Some(worker), now).outbox == before.outbox
    {
      LoadedFrom(before, claim, worker, now);
      hide EnsureRun;
    }

    /** Loading a claim queues nothing and adds only the claimed tasks. */
    static lemma LoadedFrom(before: MemoryRun, claim: Claim, worker: AgentId, now: nat)
      ensures var after := EnsureRun(before, claim, Some(worker), now);
        after.outbox == before.outbox
        && forall t :: t in after.tasks ==> t in before.tasks || exists j :: 0 <= j < |claim.tasks| && claim.tasks[j].id == t
    {
      EnsureKeepsOutbox(before, claim, Some(worker), now);
      Reloads(before, claim.tasks, now);
    }

    /** `_process_claim`. Every execution is a run of the protocol machine that starts with the claim and ends with the
        worker idle. It takes at most as many tasks as the loaded claim has attempts left, starts a search only after the
        CRM has accepted its running event, and when it reports the run no task is pending or running. It waits for work
        only if the claim lists a task that is pending with no attempt left; `patience` is how often it waits before it is
        told to stop. */
    method ProcessClaim(r: RunId, cap: nat, claim: Claim, env: Environment, worker: AgentId, seconds: nat, patience: nat, ghost s: P.Sys)
      returns (ending: Ending, executed: nat, waited: nat, ghost searches: seq<Key>, ghost s': P.Sys, ghost v: Option<Verdict>)
      requires Granted(s, worker, r, cap, claim, env)
      modifies this`moment, this`nextEvent, store, crm`runs, crm`idempotency, crm`results
      ensures Leads(s, s') && Mirrors(s', worker, r, env) && s'.agents[worker].pc == P.Idle
      ensures EndsAs(ending, v, s, s', worker, r, claim.token, env)
      ensures P.Reachable(s) && ending.Reported? && v.value.report.limitReached ==>
                |v.value.top.crm.run.candidates| == v.value.top.crm.run.maxCandidates
      ensures executed <= LeftIn(EnsureRun(RunFor(old(store.runs), r, cap), claim, Some(worker), env.time(old(moment))))
      ensures |searches| <= executed && forall k :: k in searches ==> k in crm.idempotency
      ensures waited <= patience
      ensures waited > 0 ==> StrandedIn(EnsureRun(RunFor(old(store.runs), r, cap), claim, Some(worker), env.time(old(moment)))) != {}
    {
      hide Sound, Rests, LeftIn, EnsureRun, Granted, ReportedAs, Apart, Ended, Leads, Pictures, Mirrors, Resting, Onwards, NoRepeats, Spent;
      executed, waited, searches, v := 0, 0, [], None;
      s' := LoadClaim(r, cap, claim, env, worker, s);
      assert r in store.runs by { MirrorsReady(s', worker, r, env); }
      ghost var loaded := store.runs[r];
      var drained;
      drained, s' := Redeliver(r, claim.token, env, worker, s, s');
      if !drained { return Abandoned, executed, waited, searches, s', v; }
      assert r in store.runs by { MirrorsReady(s', worker, r, env); }
      while true
        invariant Stands(s, s', worker, r, env, P.Session(claim.token, P.AtTop)) && Resting(r, env) && r in store.runs
        invariant executed + LeftIn(store.runs[r]) <= LeftIn(loaded) && Spent(loaded, store.runs[r])
        invariant |searches| <= executed && forall k :: k in searches ==> k in crm.idempotency
        invariant waited <= patience && (waited > 0 ==> StrandedIn(loaded) != {})
        decreases LeftIn(store.runs[r]), patience - waited
      {
        var end, took;
        ghost var search;
        ghost var before := store.runs[r];
        end, took, search, s', v := Turn(r, claim.token, env, worker, seconds, s, s');
        assert r in store.runs by { MirrorsReady(s', worker, r, env); }
        if took { executed := executed + 1; }
        if search.Some? { searches := searches + [search.value]; }
        if end.Some? {
          if P.Reachable(s) { LimitReachedIsFull(end.value, v, s, s', worker, r, claim.token, env); }
          return end.value, executed, waited, searches, s', v;
        }
        SpentMeans(loaded, before, store.runs[r]);
        if !took {
          if waited == patience {
            s' := Leave(r, env, worker, s, s');
            return Abandoned, executed, waited, searches, s', v;
          }
          waited := waited + 1;
        }
      }
    }

    /** A worker that stops because the limit is reached stops only when the CRM is full. */
    lemma LimitReachedIsFull(ending: Ending, v: Option<Verdict>, s: P.Sys, s': P.Sys, i: AgentId, r: RunId, token: Token, env: Environment)
      requires EndsAs(ending, v, s, s', i, r, token, env) && P.Reachable(s)
      ensures ending.Reported? && v.value.report.limitReached ==>
                |v.value.top.crm.run.candidates| == v.value.top.crm.run.maxCandidates
    {
      hide Leads, P.Reachable, Ended, ReportedAs, Summary, OpenWork, Fails, OverBudget;
      if ending.Reported? && v.value.report.limitReached {
        StaysReachable(s, v.value.top);
        Counts.LimitReachedMeansFull(v.value.top, i);
      }
    }

    static lemma SpentMeans(a: MemoryRun, b: MemoryRun, c: MemoryRun)
      requires Spent(a, b) && Spent(b, c)
      ensures Spent(a, c) && LeftIn(c) <= LeftIn(b) && StrandedIn(b) == StrandedIn(a)
    {
      hide LeftIn;
    }
  }
}
